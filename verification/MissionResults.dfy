// What one self-funded mission does, told on its status, its event and the balances alone: which answers
// settle it, which refuse it and with what left behind, and where every unit of its bounty goes.
module MissionResults {
  import opened Ledger
  import opened Missions
  import PL = PurchaseLoop

  function Least(x: int, y: int): int { if x < y then x else y }

  // ---------- the split ----------

  // What is left of the bounty after the expense is divided between reserve and mission, the reserve getting
  // its ratio in whole units.
  ghost predicate Divides(gross: int, expense: int, ratio: real, net: int, toReserve: int, toMission: int) {
    && net == (if gross > expense then gross - expense else 0)
    && toReserve + toMission == net
    && toReserve as real <= net as real * ratio < (toReserve + 1) as real
  }

  lemma SplitDivides(gross: int, expense: int, ratio: real)
    ensures var s := SplitOf(gross, expense, ratio);
            s.cost == Least(gross, expense) && Divides(gross, expense, ratio, s.net, s.reserve, s.mission)
  {
    var net := if gross > expense then gross - expense else 0;
    assert Portion(0, ratio) == 0.0 && Portion(net, ratio) == net as real * ratio;
    if gross >= expense { FloorBetween(Portion(net, ratio)); } else { assert net as real * ratio == 0.0; }
    hide Portion;
  }

  lemma FloorBetween(y: real)
    ensures y.Floor as real <= y < (y.Floor + 1) as real
  {}

  // ---------- the reconciler ----------

  // The record of a settled claim.
  ghost predicate Noted(x: Claim, group: nat, e: RevenueEvent) {
    && e.order == x.order && e.gross == x.gross && e.expense == x.expense && e.consumed == x.consumed && e.group == group
    && Divides(x.gross, x.expense, x.ratio, e.net, e.toReserve, e.toMission)
  }

  // The bounty has left revenue: expense and mission part to the treasury, the rest to the reserve.
  ghost predicate Spread(b: Book, b': Book, e: RevenueEvent) {
    forall a :: Balance(b', a) == Balance(b, a) +
      (if a == Treasury then Least(e.gross, e.expense) + e.toMission
       else if a == SurplusReserve then e.toReserve
       else if a == Revenue then -e.gross
       else 0)
  }

  // The first of nine objections refuses a claim with nothing moved; without one it is settled in full.
  lemma ReconcilesAs(b: Book, events: seq<RevenueEvent>, x: Claim)
    requires Valid(b) && FreshFrom(b, |events|)
    ensures var r := Reconcile(b, events, x);
            if !x.receipt.accepted then r == Objected(Unverified, b)
            else if !x.receipt.signed then r == Objected(BadSignature, b)
            else if x.receipt.order != x.order then r == Objected(WrongOrder, b)
            else if exists k :: 0 <= k < |events| && events[k].order == x.order then r == Objected(AlreadyReconciled, b)
            else if x.stored then r == Objected(AlreadyStored, b)
            else if x.gross < 0 || x.expense < 0 then r == Objected(NegativeAmount, b)
            else if x.ratio < 0.0 || x.ratio > 1.0 then r == Objected(BadRatio, b)
            else if Balance(b, Revenue) < x.gross then r == Objected(InsufficientRevenue, b)
            else r.Settled? && Noted(x, |events|, r.event) && Spread(b, r.book, r.event)
  {
    ReconcileAllOrNothing(b, events, x);
    SplitDivides(x.gross, x.expense, x.ratio);
    hide Valid, FreshFrom, Reconcile, SplitOf, Divides;
    assert Reconciled(events, x.order) <==> exists k :: 0 <= k < |events| && events[k].order == x.order;
    hide Reconciled, Balance;
  }

  // ---------- the mission ----------

  // The last check before the bounty is collected, and the reconciler's own on an order it has not settled.
  predicate Delivered(j: Job) { j.workDone && j.receipt.accepted && j.verifierSigned }

  ghost predicate Claimable(c: Config, events: seq<RevenueEvent>, j: Job) {
    && j.receipt.signed && j.receipt.order == j.order && !j.stored && 0.0 <= c.ratio <= 1.0
    && forall k :: 0 <= k < |events| ==> events[k].order != j.order
  }

  ghost predicate OnlyRevenue(b: Book, b': Book, amount: int) {
    forall a :: Balance(b', a) == Balance(b, a) + (if a == Revenue then amount else 0)
  }

  // Deposit and reconciliation together: revenue is where it was.
  ghost predicate Distributed(b: Book, b': Book, e: RevenueEvent) {
    forall a :: Balance(b', a) == Balance(b, a) +
      (if a == Treasury then Least(e.gross, e.expense) + e.toMission else if a == SurplusReserve then e.toReserve else 0)
  }

  lemma DepositThenSpread(b: Book, b': Book, b'': Book, e: RevenueEvent)
    requires OnlyRevenue(b, b', e.gross) && Spread(b', b'', e)
    ensures Distributed(b, b'', e)
  {
    hide Balance;
  }

  // From the work to the end; `l` is the loop once credits are at hand.
  ghost predicate CollectedAs(c: Config, l: PL.Loop, events: seq<RevenueEvent>, j: Job, expense: int, o: Outcome) {
    if !Delivered(j) then o.status == Rejected && o.event.None? && o.firm == Firm(l, events)
    else if j.bounty <= 0 then o.status == Verified && o.event.None? && o.firm == Firm(l, events)
    else
      && o.firm.loop == l.(book := o.firm.loop.book)
      && if !Claimable(c, events, j) then
           o.status == Verified && o.event.None? && o.firm.events == events && OnlyRevenue(l.book, o.firm.loop.book, j.bounty)
         else
           && o.status == SettledOrder && o.event.Some? && o.firm.events == events + [o.event.value]
           && Noted(ClaimOf(j, expense, c.ratio), |events|, o.event.value)
           && Distributed(l.book, o.firm.loop.book, o.event.value)
  }

  lemma EarnsAs(c: Config, f: Firm, j: Job, expense: int, refund: int, sink: int)
    requires Inv(c, f, sink) && expense >= 0 && Delivered(j)
    ensures CollectedAs(c, f.loop, f.events, j, expense, Earn(c, f, j, expense, refund))
  {
    hide PL.Inv, Valid, Reconcile, FreshFrom, PL.Money, PL.WellFormed, Deposit, Spread, Distributed, Balance, OnlyRevenue, Divides;
    LoopIsSound(c.loop, f.loop, sink);
    DepositsAs(f.loop.book, j.bounty, |f.events|);
    var d := Deposit(f.loop.book, j.bounty, None);
    if d.Posted? {
      RevenueCovers(f.loop.book, d.book, j.bounty);
      ReconcilesAs(d.book, f.events, ClaimOf(j, expense, c.ratio));
      var r := Reconcile(d.book, f.events, ClaimOf(j, expense, c.ratio));
      if r.Settled? { DepositThenSpread(f.loop.book, d.book, r.book, r.event); }
    }
  }

  lemma RevenueCovers(b: Book, b': Book, amount: int)
    requires Valid(b) && OnlyRevenue(b, b', amount)
    ensures Balance(b', Revenue) >= amount
  {
    assert Balance(b, Revenue) >= 0;
    hide Valid, Balance;
  }

  lemma DepositsAs(b: Book, amount: int, group: nat)
    requires Valid(b) && FreshFrom(b, group)
    ensures var d := Deposit(b, amount, None);
            && (d.Posted? <==> amount > 0)
            && (d.Posted? ==> Valid(d.book) && FreshFrom(d.book, group) && OnlyRevenue(b, d.book, amount))
  {
    DepositFrame(b, amount);
    hide Valid, Deposit, Balance, FreshFrom;
    if amount > 0 { FreshAfterDeposit(b, Deposit(b, amount, None).book, group); }
  }

  // ---------- obtaining credits ----------

  // Short of credits with nobody to buy them from, or over budget by the sized amount in whole units.
  predicate CannotBuy(c: PL.Config, j: Job) {
    || !j.hasLoop
    || (j.budget.Some? && (j.budget.value < 1 || PL.UsdgForCreditNeed(c, j.required - j.credits) > j.budget.value * 1_000_000))
  }

  // What the purchase step took out of the treasury, and what it put back, one of them nothing.
  predicate Measured(b: Book, b': Book, expense: int, refund: int) {
    && expense - refund == Balance(b, Treasury) - Balance(b', Treasury)
    && expense >= 0 && refund >= 0 && (expense == 0 || refund == 0)
  }

  // The step counts as a purchase when it completed one, met the objective, or has enough by now.
  predicate Bought(before: PL.Loop, l: PL.Loop, j: Job) {
    |l.completed| > |before.completed| || l.status == PL.ObjectiveComplete || l.acquired >= j.required
  }

  // A whole mission by its inputs: with enough credits no purchase is tried; otherwise one step of the loop
  // decides whether the work is done at all, and its cost is the mission's expense.
  ghost predicate EndedAs(c: Config, f: Firm, j: Job, o: Outcome)
    requires PL.WellFormed(f.loop)
  {
    if j.credits >= j.required then o.expense == o.refund == 0 && CollectedAs(c, f.loop, f.events, j, 0, o)
    else if CannotBuy(c.loop, j) then o == Outcome(f, Rejected, 0, 0, None, 0)
    else
      var step := PL.Step(c.loop, f.loop, j.answers);
      if step.Raised? then o == Outcome(f.(loop := step.loop), InProgress, 0, 0, None, 0)
      else
        && Measured(f.loop.book, step.loop.book, o.expense, o.refund)
        && if !Bought(f.loop, step.loop, j) then o.status == Rejected && o.event.None? && o.firm == f.(loop := step.loop)
           else CollectedAs(c, step.loop, f.events, j, o.expense, o)
  }

  lemma ObtainsAs(c: PL.Config, l: PL.Loop, j: Job)
    requires PL.WellFormed(l)
    ensures var r, step := Obtain(c, l, j), PL.Step(c, l, j.answers);
            if j.credits >= j.required then r == Acquired(l, 0, 0)
            else if CannotBuy(c, j) then r == Declined(l, 0, 0)
            else if step.Raised? then r == StepRaised(step.loop)
            else
              && (if Bought(l, step.loop, j) then r.Acquired? else r.Declined?)
              && r.loop == step.loop && Measured(l.book, step.loop.book, r.expense, r.refund)
  {
    if j.budget.Some? { BudgetAdmitsIff(c, j.required - j.credits, j.budget.value); }
    hide PL.Step, WholeUnits, PL.UsdgForCreditNeed, Balance;
  }

  lemma WorksAs(c: Config, f: Firm, j: Job, expense: int, refund: int, sink: int)
    requires Inv(c, f, sink) && expense >= 0
    ensures var o := if Delivered(j) then Earn(c, f, j, expense, refund) else Outcome(f, Rejected, expense, refund, None, 0);
            o.expense == expense && o.refund == refund && CollectedAs(c, f.loop, f.events, j, expense, o)
  {
    if Delivered(j) { EarnsAs(c, f, j, expense, refund, sink); }
    hide Inv, Reconcile, Deposit, Noted, Distributed, OnlyRevenue, Claimable;
  }

  // Every mission from a sound state.
  lemma MissionByCase(c: Config, f: Firm, j: Job, sink: int)
    requires Inv(c, f, sink)
    ensures PL.WellFormed(f.loop)
    ensures EndedAs(c, f, j, Execute(c, f, j))
  {
    hide Inv, Obtain, Earn, PL.WellFormed, CollectedAs, PL.Step, Bought, Measured, CannotBuy, Frame, Balance;
    FirmIsFormed(c, f, sink);
    ObtainsAs(c.loop, f.loop, j);
    ObtainKeepsInv(c, f, j, sink);
    var r := Obtain(c.loop, f.loop, j);
    if r.Acquired? {
      WorksAs(c, f.(loop := r.loop), j, r.expense, r.refund, sink);
    }
  }

  lemma FirmIsFormed(c: Config, f: Firm, sink: int)
    requires Inv(c, f, sink)
    ensures PL.WellFormed(f.loop)
  {
    LoopIsSound(c.loop, f.loop, sink);
  }
}
