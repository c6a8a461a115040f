// Marketplace orders between a client and a provider organisation: the bounty is locked in the
// client's escrow, then released against provider revenue in a second ledger, or refunded.
module Marketplace {
  import opened Ledger
  import M = Missions

  datatype OrderStatus = Open | Claimed | Completed | Cancelled

  datatype EscrowStatus = Held | Released | Refunded

  datatype Claimant = Claimant(org: string, agent: string)

  // The position of an order is its id; its escrow agreement is kept with it.
  datatype Order = Order(bounty: int, status: OrderStatus, claimant: Option<Claimant>, escrow: EscrowStatus)

  // `ratio` is the reserve ratio the provider's reconciler was built with.
  datatype Market = Market(client: Book, provider: Book, orders: seq<Order>, events: seq<M.RevenueEvent>, ratio: M.Ratio)

  // What the world outside answers during a settlement. `snapshot`: the caller still holds the order
  // object as it was when claimed. `signed` and `stored` are the reconciler's view of the receipt and
  // of its durable storage.
  datatype Delivery = Delivery(snapshot: bool, caller: Claimant, capable: bool, accepted: bool, signed: bool, stored: bool,
                               consumed: int)

  // `Failed`: an error reached the caller.
  datatype Result = Done(market: Market) | Failed(market: Market)

  // ---------- the operations ----------

  function Publish(m: Market, bounty: int, approved: bool): Result {
    var id := |m.orders|;
    if !approved then Failed(m)
    else
      match Transfer(m.client, Treasury, Escrow, bounty, Plain, Some(OrderLock(id)))
      case Refused(_) => Failed(m)
      case Posted(book, _) => Done(m.(client := book, orders := m.orders + [Order(bounty, Open, None, Held)]))
  }

  function Claim(m: Market, id: nat, who: Claimant): Result {
    if id < |m.orders| && m.orders[id].status == Open
    then Done(m.(orders := m.orders[id := m.orders[id].(status := Claimed, claimant := Some(who))]))
    else Failed(m)
  }

  predicate Admitted(m: Market, id: nat, d: Delivery) {
    && id < |m.orders|
    && (if d.snapshot then m.orders[id].claimant.Some? else m.orders[id].status == Claimed)
    && m.orders[id].claimant == Some(d.caller)
    && m.orders[id].escrow == Held
    && d.capable && d.accepted
  }

  function ClaimFor(m: Market, id: nat, d: Delivery): M.Claim
    requires id < |m.orders|
  {
    M.Claim(id, M.Receipt(d.accepted, d.signed, id), d.stored, m.orders[id].bounty, 0, d.consumed, m.ratio)
  }

  function Close(m: Market, id: nat, status: OrderStatus, escrow: EscrowStatus): Market
    requires id < |m.orders|
  {
    m.(orders := m.orders[id := m.orders[id].(status := status, escrow := escrow)])
  }

  function ExecuteAndSettle(m: Market, id: nat, d: Delivery): Result {
    if !Admitted(m, id, d) then Failed(m)
    else
      match Transfer(m.client, Escrow, ExternalSink, m.orders[id].bounty, Plain, Some(OrderRelease(id)))
      case Refused(_) => Failed(m)
      case Posted(client, _) =>
        match Deposit(m.provider, m.orders[id].bounty, Some(OrderRevenue(id)))
        case Refused(_) => Failed(m.(client := client))
        case Posted(provider, _) =>
          match M.Reconcile(provider, m.events, ClaimFor(m, id, d))
          case Objected(_, book) => Failed(m.(client := client, provider := book))
          case Settled(book, e) =>
            Done(Close(m.(client := client, provider := book, events := m.events + [e]), id, Completed, Released))
  }

  function RefundEscrow(m: Market, id: nat): Result {
    if id >= |m.orders| || m.orders[id].status == Completed || m.orders[id].escrow != Held then Failed(m)
    else
      match Transfer(m.client, Escrow, Treasury, m.orders[id].bounty, Plain, Some(OrderRefund(id)))
      case Refused(_) => Failed(m)
      case Posted(book, _) => Done(Close(m.(client := book), id, Cancelled, Refunded))
  }

  // ---------- sums over orders ----------

  function Part(o: Order, e: EscrowStatus): int { if o.escrow == e then o.bounty else 0 }

  function Sum(orders: seq<Order>, e: EscrowStatus): int {
    if orders == [] then 0 else Sum(orders[..|orders| - 1], e) + Part(orders[|orders| - 1], e)
  }

  lemma SumPush(orders: seq<Order>, o: Order, e: EscrowStatus)
    ensures Sum(orders + [o], e) == Sum(orders, e) + Part(o, e)
  {
    assert (orders + [o])[..|orders|] == orders;
  }

  lemma {:induction false} SumUpdate(orders: seq<Order>, i: nat, o: Order, e: EscrowStatus)
    requires i < |orders|
    ensures Sum(orders[i := o], e) == Sum(orders, e) - Part(orders[i], e) + Part(o, e)
    decreases |orders|
  {
    var n := |orders| - 1;
    if i == n { assert orders[i := o][..n] == orders[..n]; }
    else {
      SumUpdate(orders[..n], i, o, e);
      assert orders[i := o][..n] == orders[..n][i := o];
    }
  }

  lemma {:induction false} SumAtLeast(orders: seq<Order>, i: nat, e: EscrowStatus)
    requires i < |orders| && orders[i].escrow == e && forall k :: 0 <= k < |orders| ==> orders[k].bounty > 0
    ensures orders[i].bounty <= Sum(orders, e)
    decreases |orders|
  {
    var n := |orders| - 1;
    SumNonNegative(orders[..n], e);
    if i < n { SumAtLeast(orders[..n], i, e); }
  }

  lemma {:induction false} SumNonNegative(orders: seq<Order>, e: EscrowStatus)
    requires forall k :: 0 <= k < |orders| ==> orders[k].bounty > 0
    ensures Sum(orders, e) >= 0
    decreases |orders|
  {
    if orders != [] { SumNonNegative(orders[..|orders| - 1], e); }
  }

  // ---------- the invariant ----------

  // Which transaction ids may have been used for which orders.
  ghost predicate Marks(client: Book, provider: Book, orders: seq<Order>) {
    && (forall i: nat :: Chosen(OrderLock(i)) in client.txIds ==> i < |orders|)
    && (forall i: nat :: Chosen(OrderRelease(i)) in client.txIds ==> i < |orders| && orders[i].escrow == Released)
    && (forall i: nat :: Chosen(OrderRefund(i)) in client.txIds ==> i < |orders| && orders[i].escrow == Refunded)
    && (forall i: nat :: Chosen(OrderRevenue(i)) in provider.txIds ==> i < |orders| && orders[i].escrow == Released)
  }

  ghost predicate Orders(orders: seq<Order>, events: seq<M.RevenueEvent>) {
    && (forall i :: 0 <= i < |orders| ==>
          && orders[i].bounty > 0
          && (orders[i].escrow == Held <==> orders[i].status == Open || orders[i].status == Claimed)
          && (orders[i].escrow == Released <==> orders[i].status == Completed)
          && (orders[i].status == Claimed ==> orders[i].claimant.Some?)
          && (orders[i].status == Open ==> orders[i].claimant.None?))
    && (forall k :: 0 <= k < |events| ==> events[k].order < |orders| && orders[events[k].order].escrow == Released)
  }

  // What the two ledgers held before the first order.
  datatype Base = Base(sink: int, minted: int)

  ghost predicate Escrowed(m: Market, base: Base) {
    && Balance(m.client, Escrow) == Sum(m.orders, Held)
    && Balance(m.client, ExternalSink) == base.sink + Sum(m.orders, Released)
    && m.provider.minted == base.minted + Sum(m.orders, Released)
  }

  ghost predicate Inv(m: Market, base: Base) {
    && Valid(m.client) && Valid(m.provider) && M.FreshFrom(m.provider, |m.events|)
    && Marks(m.client, m.provider, m.orders) && Orders(m.orders, m.events) && Escrowed(m, base)
  }

  // ---------- each operation on its own ----------

  ghost predicate Transferred(b: Book, p: Posting, from: Account, to: Account, amount: int, name: TxName) {
    && p.Posted? && Valid(p.book)
    && p.book.txIds == b.txIds + {Chosen(name)}
    && forall a :: Balance(p.book, a) == Balance(b, a) + (if a == to then amount else 0) - (if a == from then amount else 0)
  }

  lemma TransferWorks(b: Book, from: Account, to: Account, amount: int, name: TxName)
    requires Valid(b) && from != to && Chosen(name) !in b.txIds && 0 < amount <= Balance(b, from)
    ensures Transferred(b, Transfer(b, from, to, amount, Plain, Some(name)), from, to, amount, name)
  {
    hide Valid, Transfer, Balance;
    TransferIs(b, from, to, amount, Plain, name);
    TransferKeepsValid(b, from, to, amount, Plain, Some(name));
  }

  lemma PublishKeepsInv(m: Market, bounty: int, approved: bool, base: Base)
    requires Inv(m, base)
    ensures Inv(Publish(m, bounty, approved).market, base)
    ensures Publish(m, bounty, approved).Done? <==> approved && 0 < bounty <= Balance(m.client, Treasury)
  {
    var id := |m.orders|;
    assert Chosen(OrderLock(id)) !in m.client.txIds;
    hide Valid, M.FreshFrom, Transfer, Marks, Orders, Escrowed;
    TransferIs(m.client, Treasury, Escrow, bounty, Plain, OrderLock(id));
    if approved && 0 < bounty <= Balance(m.client, Treasury) {
      TransferWorks(m.client, Treasury, Escrow, bounty, OrderLock(id));
      PublishedKeepsInv(m, bounty, Transfer(m.client, Treasury, Escrow, bounty, Plain, Some(OrderLock(id))), base);
    }
  }

  lemma PublishedKeepsInv(m: Market, bounty: int, p: Posting, base: Base)
    requires Inv(m, base) && bounty > 0 && Transferred(m.client, p, Treasury, Escrow, bounty, OrderLock(|m.orders|))
    ensures Inv(m.(client := p.book, orders := m.orders + [Order(bounty, Open, None, Held)]), base)
  {
    var o := Order(bounty, Open, None, Held);
    SumPush(m.orders, o, Held);
    SumPush(m.orders, o, Released);
    hide Valid, M.FreshFrom, Sum, Balance;
  }

  lemma ClaimKeepsInv(m: Market, id: nat, who: Claimant, base: Base)
    requires Inv(m, base)
    ensures Inv(Claim(m, id, who).market, base)
  {
    hide Valid, M.FreshFrom;
    if id < |m.orders| && m.orders[id].status == Open {
      var o := m.orders[id].(status := Claimed, claimant := Some(who));
      SumUpdate(m.orders, id, o, Held);
      SumUpdate(m.orders, id, o, Released);
      hide Balance, Sum;
    }
  }

  // A held escrow is always refundable, whether or not the order has been claimed.
  lemma RefundKeepsInv(m: Market, id: nat, base: Base)
    requires Inv(m, base)
    ensures Inv(RefundEscrow(m, id).market, base)
    ensures RefundEscrow(m, id).Done? <==> id < |m.orders| && m.orders[id].escrow == Held
  {
    hide Valid, M.FreshFrom;
    if id < |m.orders| && m.orders[id].escrow == Held {
      SumAtLeast(m.orders, id, Held);
      assert Chosen(OrderRefund(id)) !in m.client.txIds;
      TransferWorks(m.client, Escrow, Treasury, m.orders[id].bounty, OrderRefund(id));
      CloseSums(m.orders, id, Cancelled, Refunded);
      hide Transfer, Sum, Balance;
    }
  }

  lemma CloseSums(orders: seq<Order>, id: nat, status: OrderStatus, escrow: EscrowStatus)
    requires id < |orders| && orders[id].escrow == Held && escrow != Held
    ensures var after := orders[id := orders[id].(status := status, escrow := escrow)];
            && Sum(after, Held) == Sum(orders, Held) - orders[id].bounty
            && Sum(after, Released) == Sum(orders, Released) + (if escrow == Released then orders[id].bounty else 0)
  {
    var o := orders[id].(status := status, escrow := escrow);
    SumUpdate(orders, id, o, Held);
    SumUpdate(orders, id, o, Released);
  }

  // The books after both sides of a settlement were posted, before the reconciler is asked.
  ghost predicate BothPosted(m: Market, id: nat, client: Book, provider: Book)
    requires id < |m.orders|
  {
    var bounty := m.orders[id].bounty;
    && Valid(client) && Valid(provider) && M.FreshFrom(provider, |m.events|)
    && (forall a :: Balance(client, a) ==
          Balance(m.client, a) + (if a == ExternalSink then bounty else 0) - (if a == Escrow then bounty else 0))
    && provider.minted == m.provider.minted + bounty
    && Balance(provider, Revenue) >= bounty
    && client.txIds == m.client.txIds + {Chosen(OrderRelease(id))}
    && provider.txIds == m.provider.txIds + {Chosen(OrderRevenue(id))}
  }

  lemma BothPost(m: Market, id: nat, base: Base)
    requires Inv(m, base) && id < |m.orders| && m.orders[id].escrow == Held
    ensures var t := Transfer(m.client, Escrow, ExternalSink, m.orders[id].bounty, Plain, Some(OrderRelease(id)));
            var d := Deposit(m.provider, m.orders[id].bounty, Some(OrderRevenue(id)));
            t.Posted? && d.Posted? && BothPosted(m, id, t.book, d.book)
  {
    var bounty := m.orders[id].bounty;
    SumAtLeast(m.orders, id, Held);
    assert Chosen(OrderRelease(id)) !in m.client.txIds && Chosen(OrderRevenue(id)) !in m.provider.txIds;
    TransferWorks(m.client, Escrow, ExternalSink, bounty, OrderRelease(id));
    DepositWorks(m.provider, bounty, OrderRevenue(id), |m.events|);
    hide Valid, Transfer, Deposit, M.FreshFrom;
  }

  lemma DepositWorks(b: Book, amount: int, name: TxName, group: nat)
    requires Valid(b) && amount > 0 && Chosen(name) !in b.txIds && M.FreshFrom(b, group) && M.SurplusGroup(Chosen(name)).None?
    ensures var d := Deposit(b, amount, Some(name));
            && d.Posted? && Valid(d.book) && M.FreshFrom(d.book, group)
            && d.book.txIds == b.txIds + {Chosen(name)} && d.book.minted == b.minted + amount
            && Balance(d.book, Revenue) >= amount
  {
    DepositKeepsValid(b, amount, Some(name));
    assert Balance(b, Revenue) >= 0;
    hide Valid;
  }

  // After the two postings the reconciler objects exactly to a bad signature or a stored duplicate: a
  // held order has no event yet.
  lemma ObjectionAfterPosting(m: Market, id: nat, d: Delivery, provider: Book, base: Base)
    requires Inv(m, base) && Admitted(m, id, d) && Balance(provider, Revenue) >= m.orders[id].bounty
    ensures M.Objection(provider, m.events, ClaimFor(m, id, d)).Some? <==> !d.signed || d.stored
  {
    hide Valid, M.FreshFrom, Marks, Escrowed, Balance;
    forall e | e in m.events ensures e.order != id {
      var k :| 0 <= k < |m.events| && m.events[k] == e;
    }
  }

  // Settlement of an admitted order is complete, or stops with both ledgers charged and the order
  // still open for refund.
  lemma SettleIs(m: Market, id: nat, d: Delivery, base: Base)
    requires Inv(m, base) && Admitted(m, id, d)
    ensures var r := ExecuteAndSettle(m, id, d);
            && (r.Done? <==> d.signed && !d.stored)
            && (r.Done? ==> Inv(r.market, base))
            && (r.Failed? ==>
                  && r.market.orders == m.orders && r.market.events == m.events
                  && BothPosted(m, id, r.market.client, r.market.provider))
  {
    var bounty := m.orders[id].bounty;
    BothPost(m, id, base);
    var client := Transfer(m.client, Escrow, ExternalSink, bounty, Plain, Some(OrderRelease(id))).book;
    var provider := Deposit(m.provider, bounty, Some(OrderRevenue(id))).book;
    var x := ClaimFor(m, id, d);
    ObjectionAfterPosting(m, id, d, provider, base);
    M.ReconcileAllOrNothing(provider, m.events, x);
    hide Valid, Transfer, Deposit, M.Objection, M.Reconcile, M.FreshFrom;
    var r := M.Reconcile(provider, m.events, x);
    if r.Settled? {
      ReconcileMintsNothing(provider, m.events, x);
      SettledKeepsInv(m, id, client, provider, r.book, r.event, base, M.SplitOf(x.gross, x.expense, x.ratio));
    }
  }

  lemma ReconcileMintsNothing(b: Book, events: seq<M.RevenueEvent>, x: M.Claim)
    ensures M.Reconcile(b, events, x).book.minted == b.minted
  {
    hide M.Objection;
  }

  lemma SettledKeepsInv(m: Market, id: nat, client: Book, provider: Book, settled: Book, e: M.RevenueEvent, base: Base, s: M.Split)
    requires Inv(m, base) && id < |m.orders| && m.orders[id].escrow == Held
    requires BothPosted(m, id, client, provider) && M.Moved(provider, settled, s) && settled.minted == provider.minted
    requires Valid(settled) && M.FreshFrom(settled, |m.events| + 1) && e.order == id
    ensures Inv(Close(m.(client := client, provider := settled, events := m.events + [e]), id, Completed, Released), base)
  {
    hide Valid, M.FreshFrom, Sum;
    CloseSums(m.orders, id, Completed, Released);
    assert forall i: nat :: Chosen(OrderRevenue(i)) in settled.txIds ==> Chosen(OrderRevenue(i)) in provider.txIds by {
      assert forall i: nat :: M.SurplusGroup(Chosen(OrderRevenue(i))).None?;
    }
    hide Balance;
  }

  // ---------- runs ----------

  datatype Step =
    | DoPublish(bounty: int, approved: bool)
    | DoClaim(id: nat, who: Claimant)
    | DoSettle(id: nat, delivery: Delivery)
    | DoRefund(id: nat)

  function Next(m: Market, s: Step): Result {
    match s
    case DoPublish(bounty, approved) => Publish(m, bounty, approved)
    case DoClaim(id, who) => Claim(m, id, who)
    case DoSettle(id, d) => ExecuteAndSettle(m, id, d)
    case DoRefund(id) => RefundEscrow(m, id)
  }

  // The reconciler will object after the money has moved.
  predicate Derails(m: Market, s: Step) {
    s.DoSettle? && Admitted(m, s.id, s.delivery) && (!s.delivery.signed || s.delivery.stored)
  }

  // Every step keeps the invariant except exactly a settlement the reconciler turns down after both
  // ledgers were charged.
  lemma StepKeepsInvIff(m: Market, s: Step, base: Base)
    requires Inv(m, base)
    ensures Inv(Next(m, s).market, base) <==> !Derails(m, s)
  {
    hide Inv, Publish, Claim, ExecuteAndSettle, RefundEscrow, Admitted;
    match s
    case DoPublish(bounty, approved) => PublishKeepsInv(m, bounty, approved, base);
    case DoClaim(id, who) => ClaimKeepsInv(m, id, who, base);
    case DoRefund(id) => RefundKeepsInv(m, id, base);
    case DoSettle(id, d) =>
      if Admitted(m, id, d) {
        SettleIs(m, id, d, base);
        if Derails(m, s) { DerailedBreaksInv(m, id, d, base); }
      } else {
        NotAdmitted(m, id, d);
      }
  }

  lemma NotAdmitted(m: Market, id: nat, d: Delivery)
    requires !Admitted(m, id, d)
    ensures ExecuteAndSettle(m, id, d) == Failed(m)
  {}

  lemma DerailedBreaksInv(m: Market, id: nat, d: Delivery, base: Base)
    requires Inv(m, base) && Admitted(m, id, d) && ExecuteAndSettle(m, id, d).Failed?
    ensures !Inv(ExecuteAndSettle(m, id, d).market, base)
  {
    SettleIs(m, id, d, base);
    hide Valid, ExecuteAndSettle, M.FreshFrom, Marks;
    assert m.orders[id].bounty > 0;
  }

  function Run(m: Market, steps: seq<Step>): Market
    decreases |steps|
  {
    if steps == [] then m else Run(Next(m, steps[0]).market, steps[1..])
  }

  predicate Smooth(m: Market, steps: seq<Step>)
    decreases |steps|
  {
    steps == [] || (!Derails(m, steps[0]) && Smooth(Next(m, steps[0]).market, steps[1..]))
  }

  lemma {:induction false} RunKeepsInv(m: Market, steps: seq<Step>, base: Base)
    requires Inv(m, base) && Smooth(m, steps)
    ensures Inv(Run(m, steps), base)
    decreases |steps|
  {
    hide Inv, Next, Derails;
    if steps != [] {
      StepKeepsInvIff(m, steps[0], base);
      RunKeepsInv(Next(m, steps[0]).market, steps[1..], base);
    }
  }

  function Fresh(client: Book, provider: Book, ratio: M.Ratio): Market { Market(client, provider, [], [], ratio) }

  ghost predicate Unused(client: Book, provider: Book) {
    && (forall t :: t in client.txIds && t.Chosen? ==> !t.name.OrderLock? && !t.name.OrderRelease? && !t.name.OrderRefund?)
    && (forall t :: t in provider.txIds && t.Chosen? ==> !t.name.OrderRevenue? && M.SurplusGroup(t).None?)
  }

  // Over every interleaving: client escrow is the held bounties, what the client paid out is what the
  // provider was credited, and no order is both released and refunded.
  lemma EveryMarketIsSound(client: Book, provider: Book, ratio: M.Ratio, steps: seq<Step>)
    requires Valid(client) && Valid(provider) && Unused(client, provider) && Balance(client, Escrow) == 0
    requires Smooth(Fresh(client, provider, ratio), steps)
    ensures var m := Run(Fresh(client, provider, ratio), steps);
            && Balance(m.client, Escrow) == Sum(m.orders, Held)
            && Balance(m.client, ExternalSink) - Balance(client, ExternalSink) == m.provider.minted - provider.minted
            && (forall i: nat :: !(Chosen(OrderRelease(i)) in m.client.txIds && Chosen(OrderRefund(i)) in m.client.txIds))
  {
    var base := Base(Balance(client, ExternalSink), provider.minted);
    assert Inv(Fresh(client, provider, ratio), base) by { hide Valid; }
    hide Valid, Run;
    RunKeepsInv(Fresh(client, provider, ratio), steps, base);
  }

  // After a derailed settlement the same order can still be refunded, so that its bounty leaves
  // escrow twice, exactly when the other held bounties cover it.
  lemma DerailedThenRefundIff(m: Market, id: nat, d: Delivery, base: Base)
    requires Inv(m, base) && Derails(m, DoSettle(id, d))
    ensures var broken := ExecuteAndSettle(m, id, d).market;
            var r := RefundEscrow(broken, id);
            && (r.Done? <==> Sum(m.orders, Held) >= 2 * m.orders[id].bounty)
            && (r.Done? ==> Chosen(OrderRelease(id)) in r.market.client.txIds && Chosen(OrderRefund(id)) in r.market.client.txIds)
            && !ExecuteAndSettle(broken, id, d).Done?
  {
    BrokenIs(m, id, d, base);
    var broken := ExecuteAndSettle(m, id, d).market;
    var bounty := m.orders[id].bounty;
    hide Inv, Transfer, Sum, Balance, ExecuteAndSettle, Derails, Admitted;
    TransferIs(broken.client, Escrow, Treasury, bounty, Plain, OrderRefund(id));
    SecondReleaseFails(broken, id, d);
  }

  lemma BrokenIs(m: Market, id: nat, d: Delivery, base: Base)
    requires Inv(m, base) && Derails(m, DoSettle(id, d))
    ensures var broken := ExecuteAndSettle(m, id, d).market;
            && id < |m.orders| && m.orders[id].bounty > 0 && broken.orders == m.orders
            && m.orders[id].status != Completed && m.orders[id].escrow == Held
            && Chosen(OrderRelease(id)) in broken.client.txIds && Chosen(OrderRefund(id)) !in broken.client.txIds
            && Balance(broken.client, Escrow) == Sum(m.orders, Held) - m.orders[id].bounty
  {
    SettleIs(m, id, d, base);
    hide ExecuteAndSettle, Valid, M.FreshFrom;
  }

  // The release id is spent: the order cannot be settled again.
  lemma SecondReleaseFails(m: Market, id: nat, d: Delivery)
    requires id < |m.orders| && Chosen(OrderRelease(id)) in m.client.txIds
    ensures ExecuteAndSettle(m, id, d) == Failed(m)
  {
    TransferIs(m.client, Escrow, ExternalSink, m.orders[id].bounty, Plain, OrderRelease(id));
    hide Transfer, Deposit, M.Reconcile, Admitted;
  }

  // ---------- a run into the second payout ----------

  lemma FreshInv(client: Book, provider: Book, ratio: M.Ratio)
    requires Valid(client) && Valid(provider) && Unused(client, provider) && Balance(client, Escrow) == 0
    ensures Inv(Fresh(client, provider, ratio), Base(Balance(client, ExternalSink), provider.minted))
  {
    hide Valid;
  }

  lemma OpenUnused(initialTreasury: int)
    ensures Valid(Ledger.Open(initialTreasury)) && Valid(Empty()) && Unused(Ledger.Open(initialTreasury), Empty())
    ensures Balance(Ledger.Open(initialTreasury), Escrow) == 0
  {
    OpenIsPlain(initialTreasury);
    EmptyValid();
    var b := Ledger.Open(initialTreasury);
    assert b.txIds == (set e | e in b.entries :: e.tx);
    hide Valid, Ledger.Open;
    forall t | t in b.txIds ensures t.Generated? {
      var e :| e in b.entries && e.tx == t;
    }
  }

  // One more held order of five, paid for out of the treasury.
  lemma PublishFive(m: Market, base: Base)
    requires Inv(m, base) && Balance(m.client, Treasury) >= 5
    ensures var m' := Next(m, DoPublish(5, true)).market;
            && Inv(m', base) && m'.orders == m.orders + [Order(5, OrderStatus.Open, None, Held)]
            && Balance(m'.client, Treasury) == Balance(m.client, Treasury) - 5
  {
    PublishKeepsInv(m, 5, true, base);
    TransferIs(m.client, Treasury, Escrow, 5, Plain, OrderLock(|m.orders|));
    hide Inv, Transfer, Balance;
  }

  function Worker(): Claimant { Claimant("provider", "worker") }

  // A verified delivery whose receipt fails the reconciler's own signature check.
  function Unsigned(): Delivery { Delivery(false, Worker(), true, true, false, false, 0) }

  function TwoPayouts(): seq<Step> {
    [DoPublish(5, true), DoPublish(5, true), DoClaim(0, Worker()), DoSettle(0, Unsigned()), DoRefund(0)]
  }

  // Two orders of five, one claimed, settled with a receipt the reconciler does not accept, and refunded:
  // its bounty has left escrow both ways, the second time out of the other order's.
  lemma ReleasedAndRefunded(ratio: M.Ratio)
    ensures var m := Run(Fresh(Ledger.Open(100), Empty(), ratio), TwoPayouts());
            && Chosen(OrderRelease(0)) in m.client.txIds && Chosen(OrderRefund(0)) in m.client.txIds
            && |m.orders| == 2 && m.orders[1].escrow == Held && Balance(m.client, Escrow) == 0
  {
    hide Inv, ExecuteAndSettle, RefundEscrow, Publish, Claim, Balance, Run, Ledger.Open, Derails;
    var base := Base(Balance(Ledger.Open(100), ExternalSink), 0);
    var m3 := ClaimedFirst(ratio);
    TwoHeld(m3.orders);
    UnsignedDerails(m3);
    DerailedThenRefundIff(m3, 0, Unsigned(), base);
    LastBounty(m3, base);
    RunFive(Fresh(Ledger.Open(100), Empty(), ratio), TwoPayouts());
  }

  lemma UnsignedDerails(m: Market)
    requires |m.orders| > 0 && m.orders[0] == Order(5, Claimed, Some(Worker()), Held)
    ensures Derails(m, DoSettle(0, Unsigned()))
  {}

  lemma ClaimedFirst(ratio: M.Ratio) returns (m: Market)
    ensures m == Next(Next(Next(Fresh(Ledger.Open(100), Empty(), ratio), DoPublish(5, true)).market, DoPublish(5, true)).market,
                      DoClaim(0, Worker())).market
    ensures Inv(m, Base(Balance(Ledger.Open(100), ExternalSink), 0))
    ensures m.orders == [Order(5, Claimed, Some(Worker()), Held), Order(5, OrderStatus.Open, None, Held)]
  {
    hide Inv, Publish, Balance, Ledger.Open;
    var m0 := Fresh(Ledger.Open(100), Empty(), ratio);
    OpenUnused(100);
    OpenHolds(100);
    FreshInv(Ledger.Open(100), Empty(), ratio);
    var base := Base(Balance(Ledger.Open(100), ExternalSink), 0);
    PublishFive(m0, base);
    var m1 := Next(m0, DoPublish(5, true)).market;
    PublishFive(m1, base);
    var m2 := Next(m1, DoPublish(5, true)).market;
    ClaimKeepsInv(m2, 0, Worker(), base);
    m := Next(m2, DoClaim(0, Worker())).market;
    assert m2.orders == [Order(5, OrderStatus.Open, None, Held), Order(5, OrderStatus.Open, None, Held)];
  }

  lemma TwoHeld(orders: seq<Order>)
    requires |orders| == 2 && orders[0].bounty == orders[1].bounty == 5 && orders[0].escrow == orders[1].escrow == Held
    ensures Sum(orders, Held) == 10
  {
    assert orders == ([] + [orders[0]]) + [orders[1]];
    SumPush([], orders[0], Held);
    SumPush([] + [orders[0]], orders[1], Held);
  }

  lemma LastBounty(m: Market, base: Base)
    requires Inv(m, base) && Derails(m, DoSettle(0, Unsigned())) && Sum(m.orders, Held) == 10 && m.orders[0].bounty == 5
    ensures var n := RefundEscrow(ExecuteAndSettle(m, 0, Unsigned()).market, 0).market;
            Balance(n.client, Escrow) == 0 && |n.orders| == |m.orders| && forall k :: 1 <= k < |m.orders| ==> n.orders[k] == m.orders[k]
  {
    BrokenIs(m, 0, Unsigned(), base);
    var broken := ExecuteAndSettle(m, 0, Unsigned()).market;
    hide Inv, ExecuteAndSettle, Transfer, Balance, Sum, Derails;
    TransferIs(broken.client, Escrow, Treasury, 5, Plain, OrderRefund(0));
    var p := Transfer(broken.client, Escrow, Treasury, 5, Plain, Some(OrderRefund(0)));
    assert p.Posted?;
    assert Balance(p.book, Escrow) == 0;
    assert RefundEscrow(broken, 0) == Done(Close(broken.(client := p.book), 0, Cancelled, Refunded));
  }

  lemma RunFive(m: Market, s: seq<Step>)
    requires |s| == 5
    ensures Run(m, s) == Next(Next(Next(Next(Next(m, s[0]).market, s[1]).market, s[2]).market, s[3]).market, s[4]).market
  {
    hide Next;
    var m1 := Next(m, s[0]).market;
    var m2 := Next(m1, s[1]).market;
    var m3 := Next(m2, s[2]).market;
    var m4 := Next(m3, s[3]).market;
    assert s[1..][1..] == s[2..] && s[2..][1..] == s[3..] && s[3..][1..] == s[4..] && s[4..][1..] == [];
    assert Run(m4, s[4..]) == Next(m4, s[4]).market;
    assert Run(m3, s[3..]) == Run(m4, s[4..]);
    assert Run(m2, s[2..]) == Run(m3, s[3..]);
  }

  // ---------- the object ----------

  ghost predicate Ends(r: Result, m: Market, ok: bool) { r.market == m && (r.Done? <==> ok) }

  class B2BMarketplaceCoordinator {
    const clientLedger: DoubleEntryLedger
    const providerLedger: DoubleEntryLedger
    const reconciler: M.SurplusReconciler
    var orders: seq<Order>

    ghost function State(): Market
      reads this, clientLedger, providerLedger, reconciler
    {
      Market(clientLedger.State(), providerLedger.State(), orders, reconciler.events, reconciler.reserveRatio)
    }

    ghost predicate Separate()
      reads this
    {
      clientLedger != providerLedger && reconciler.ledger == providerLedger
    }

    constructor (clientLedger: DoubleEntryLedger, providerLedger: DoubleEntryLedger, reconciler: M.SurplusReconciler)
      requires clientLedger != providerLedger && reconciler.ledger == providerLedger
      ensures Separate() && State() == Market(clientLedger.State(), providerLedger.State(), [], reconciler.events, reconciler.reserveRatio)
    {
      this.clientLedger, this.providerLedger, this.reconciler := clientLedger, providerLedger, reconciler;
      orders := [];
    }

    method PublishOrder(bounty: int, approved: bool) returns (ok: bool)
      requires Separate()
      modifies this, clientLedger
      ensures Ends(Publish(old(State()), bounty, approved), State(), ok)
    {
      hide Transfer;
      if !approved { return false; }
      var refused := clientLedger.Move(Treasury, Escrow, bounty, Plain, Some(OrderLock(|orders|)));
      if refused.Some? { return false; }
      orders := orders + [Order(bounty, Open, None, Held)];
      return true;
    }

    method ClaimOrder(id: nat, who: Claimant) returns (ok: bool)
      modifies this
      ensures Ends(Claim(old(State()), id, who), State(), ok)
    {
      if id >= |orders| || orders[id].status != Open { return false; }
      orders := orders[id := orders[id].(status := Claimed, claimant := Some(who))];
      return true;
    }

    method SettleOrder(id: nat, d: Delivery) returns (ok: bool)
      requires Separate()
      modifies this, clientLedger, providerLedger, reconciler
      ensures Ends(ExecuteAndSettle(old(State()), id, d), State(), ok)
    {
      hide Transfer, Deposit, M.Reconcile;
      if id >= |orders| { return false; }
      var order := orders[id];
      if !d.snapshot && order.status != Claimed { return false; }
      if order.claimant != Some(d.caller) { return false; }
      if order.escrow != Held || !d.capable || !d.accepted { return false; }
      var refused := clientLedger.Move(Escrow, ExternalSink, order.bounty, Plain, Some(OrderRelease(id)));
      if refused.Some? { return false; }
      refused := providerLedger.DepositRevenue(order.bounty, Some(OrderRevenue(id)));
      if refused.Some? { return false; }
      var event := reconciler.ReconcileSurplus(
        M.Claim(id, M.Receipt(d.accepted, d.signed, id), d.stored, order.bounty, 0, d.consumed, reconciler.reserveRatio));
      if event.None? { return false; }
      orders := orders[id := order.(status := Completed, escrow := Released)];
      return true;
    }

    method Refund(id: nat) returns (ok: bool)
      requires Separate()
      modifies this, clientLedger
      ensures Ends(RefundEscrow(old(State()), id), State(), ok)
    {
      hide Transfer;
      if id >= |orders| || orders[id].status == Completed || orders[id].escrow != Held { return false; }
      var refused := clientLedger.Move(Escrow, Treasury, orders[id].bounty, Plain, Some(OrderRefund(id)));
      if refused.Some? { return false; }
      orders := orders[id := orders[id].(status := Cancelled, escrow := Refunded)];
      return true;
    }
  }
}
