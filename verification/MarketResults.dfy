// What each marketplace operation does to an order and to the two ledgers, told on its inputs and on
// balances alone.
module MarketResults {
  import opened Ledger
  import opened Marketplace
  import M = Missions
  import R = MissionResults

  // Only order `id` differs, and only in these three fields.
  ghost predicate OnlyOrder(m: Market, m': Market, id: nat, status: OrderStatus, escrow: EscrowStatus, claimant: Option<Claimant>) {
    && id < |m.orders| == |m'.orders| && m'.ratio == m.ratio
    && (forall k :: 0 <= k < |m.orders| && k != id ==> m'.orders[k] == m.orders[k])
    && m'.orders[id] == Order(m.orders[id].bounty, status, claimant, escrow)
  }

  // An approved bounty the treasury can cover opens an order and moves into escrow; any other is refused.
  lemma PublishAs(m: Market, bounty: int, approved: bool, base: Base)
    requires Inv(m, base)
    ensures var r := Publish(m, bounty, approved); var m' := r.market;
            if approved && 0 < bounty <= Balance(m.client, Treasury) then
              && r.Done? && m'.orders == m.orders + [Order(bounty, OrderStatus.Open, None, Held)]
              && Shifted(m.client, m'.client, -bounty, bounty, 0)
              && m'.provider == m.provider && m'.events == m.events && m'.ratio == m.ratio
            else r == Failed(m)
  {
    hide Inv, Transfer, Balance;
    PublishKeepsInv(m, bounty, approved, base);
    TransferIs(m.client, Treasury, Escrow, bounty, Plain, OrderLock(|m.orders|));
  }

  // An open order goes to the first claimant; nothing else changes hands.
  lemma ClaimAs(m: Market, id: nat, who: Claimant)
    ensures var r := Claim(m, id, who); var m' := r.market;
            if id < |m.orders| && m.orders[id].status == OrderStatus.Open then
              && r.Done? && OnlyOrder(m, m', id, Claimed, m.orders[id].escrow, Some(who))
              && m'.client == m.client && m'.provider == m.provider && m'.events == m.events
            else r == Failed(m)
  {}

  // Delivered by its claimant, capable, verified, and not yet settled or refunded.
  predicate Settleable(m: Market, id: nat, d: Delivery) {
    && id < |m.orders| && m.orders[id].escrow == Held
    && m.orders[id].claimant == Some(d.caller) && (d.snapshot || m.orders[id].status == Claimed)
    && d.capable && d.accepted
  }

  // The bounty is out of the client's escrow for good.
  ghost predicate PaidOut(m: Market, m': Market, bounty: int) {
    Shifted(m.client, m'.client, 0, -bounty, bounty)
  }

  // Settlement: refused with nothing changed, complete on both sides, or charged on both sides with the order
  // still held, when the reconciler rejects the receipt's signature or finds the order stored already.
  ghost predicate SettledAs(m: Market, id: nat, d: Delivery, r: Result) {
    var m' := r.market;
    if !Settleable(m, id, d) then r == Failed(m)
    else
      var o := m.orders[id];
      && PaidOut(m, m', o.bounty)
      && if d.signed && !d.stored then
           && r.Done? && OnlyOrder(m, m', id, Completed, Released, o.claimant)
           && |m'.events| == |m.events| + 1 && m'.events[..|m.events|] == m.events
           && R.Noted(ClaimFor(m, id, d), |m.events|, m'.events[|m.events|])
           && R.Distributed(m.provider, m'.provider, m'.events[|m.events|])
         else
           && r.Failed? && m'.orders == m.orders && m'.events == m.events && m'.ratio == m.ratio
           && R.OnlyRevenue(m.provider, m'.provider, o.bounty)
  }

  // What the reconciler is asked: the whole bounty, no expense, on a receipt for this order.
  lemma ClaimForAs(m: Market, id: nat, d: Delivery)
    requires id < |m.orders|
    ensures var x := ClaimFor(m, id, d);
            && x.order == x.receipt.order == id && x.gross == m.orders[id].bounty && x.expense == 0
            && x.receipt.accepted == d.accepted && x.receipt.signed == d.signed && x.stored == d.stored
            && x.consumed == d.consumed && x.ratio == m.ratio
  {}

  lemma AdmittedAs(m: Market, id: nat, d: Delivery)
    ensures Admitted(m, id, d) <==> Settleable(m, id, d)
  {}

  lemma BothPostAs(m: Market, id: nat, base: Base)
    requires Inv(m, base) && id < |m.orders| && m.orders[id].escrow == Held
    ensures var bounty := m.orders[id].bounty;
            var t := Transfer(m.client, Escrow, ExternalSink, bounty, Plain, Some(OrderRelease(id)));
            var p := Deposit(m.provider, bounty, Some(OrderRevenue(id)));
            && t.Posted? && p.Posted? && Shifted(m.client, t.book, 0, -bounty, bounty)
            && R.OnlyRevenue(m.provider, p.book, bounty)
            && Valid(p.book) && M.FreshFrom(p.book, |m.events|) && Balance(p.book, Revenue) >= bounty > 0
  {
    BothPost(m, id, base);
    assert m.orders[id].bounty > 0;
    hide Inv, Valid, M.FreshFrom;
  }

  lemma NoEventYet(m: Market, id: nat, base: Base)
    requires Inv(m, base) && id < |m.orders| && m.orders[id].escrow == Held
    ensures forall k :: 0 <= k < |m.events| ==> m.events[k].order != id
  {
    hide Valid, M.FreshFrom, Marks, Escrowed;
  }

  lemma SettleAs(m: Market, id: nat, d: Delivery, base: Base)
    requires Inv(m, base)
    ensures SettledAs(m, id, d, ExecuteAndSettle(m, id, d))
  {
    hide Inv, Valid, Transfer, Deposit, M.Reconcile, M.FreshFrom, R.Noted, R.Distributed, R.OnlyRevenue, R.Spread, Shifted, Balance, Admitted;
    AdmittedAs(m, id, d);
    if Settleable(m, id, d) {
      BothPostAs(m, id, base);
      NoEventYet(m, id, base);
      ClaimForAs(m, id, d);
      var p := Deposit(m.provider, m.orders[id].bounty, Some(OrderRevenue(id))).book;
      var x := ClaimFor(m, id, d);
      hide ClaimFor;
      R.ReconcilesAs(p, m.events, x);
      var r := M.Reconcile(p, m.events, x);
      if r.Settled? {
        NotedGross(x, |m.events|, r.event);
        R.DepositThenSpread(m.provider, p, r.book, r.event);
      }
    }
  }

  lemma NotedGross(x: M.Claim, group: nat, e: M.RevenueEvent)
    requires R.Noted(x, group, e)
    ensures e.gross == x.gross
  {}

  // A held order can be refunded whether or not it was claimed: the bounty returns to the treasury and the
  // order is cancelled. Any other refund is refused.
  lemma RefundAs(m: Market, id: nat, base: Base)
    requires Inv(m, base)
    ensures var r := RefundEscrow(m, id); var m' := r.market;
            if id < |m.orders| && m.orders[id].escrow == Held then
              && r.Done? && OnlyOrder(m, m', id, Cancelled, Refunded, m.orders[id].claimant)
              && Shifted(m.client, m'.client, m.orders[id].bounty, -m.orders[id].bounty, 0)
              && m'.provider == m.provider && m'.events == m.events
            else r == Failed(m)
  {
    hide Inv, Transfer, Balance;
    RefundKeepsInv(m, id, base);
    if id < |m.orders| { TransferIs(m.client, Escrow, Treasury, m.orders[id].bounty, Plain, OrderRefund(id)); }
  }
}
