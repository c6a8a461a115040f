// Self-funding missions: buy compute credits if short, do the work, deposit the bounty as revenue
// and split it between cost reimbursement, retained reserve and the next mission's budget.
module Missions {
  import opened Ledger
  import PL = PurchaseLoop

  // ---------- the reconciler ----------

  // The default ratio is checked when a reconciler is built; a ratio given with a claim is not.
  type Ratio = r: real | 0.0 <= r <= 1.0 witness 0.0

  // `accepted`: the verifier's status; `signed`: its signature checks under the reconciler's key.
  datatype Receipt = Receipt(accepted: bool, signed: bool, order: nat)

  datatype RevenueEvent = RevenueEvent(order: nat, gross: int, expense: int, net: int, consumed: int,
                                       toMission: int, toReserve: int, group: nat)

  datatype Claim = Claim(order: nat, receipt: Receipt, stored: bool, gross: int, expense: int, consumed: int, ratio: real)

  datatype Reason =
    | Unverified | BadSignature | WrongOrder | AlreadyReconciled | AlreadyStored | NegativeAmount | BadRatio
    | InsufficientRevenue | LedgerRefused

  datatype Reconciliation = Settled(book: Book, event: RevenueEvent) | Objected(reason: Reason, book: Book)

  datatype Split = Split(cost: int, net: int, reserve: int, mission: int)

  function Portion(net: int, ratio: real): real { net as real * ratio }

  function SplitOf(gross: int, expense: int, ratio: real): Split {
    if gross >= expense then
      var net := gross - expense;
      var reserve := Portion(net, ratio).Floor;
      Split(expense, net, reserve, net - reserve)
    else Split(gross, 0, 0, 0)
  }

  predicate Reconciled(events: seq<RevenueEvent>, order: nat) { exists e :: e in events && e.order == order }

  function Objection(b: Book, events: seq<RevenueEvent>, x: Claim): Option<Reason> {
    if !x.receipt.accepted then Some(Unverified)
    else if !x.receipt.signed then Some(BadSignature)
    else if x.receipt.order != x.order then Some(WrongOrder)
    else if Reconciled(events, x.order) then Some(AlreadyReconciled)
    else if x.stored then Some(AlreadyStored)
    else if x.gross < 0 then Some(NegativeAmount)
    else if x.expense < 0 then Some(NegativeAmount)
    else if !(0.0 <= x.ratio <= 1.0) then Some(BadRatio)
    else if Balance(b, Revenue) < x.gross then Some(InsufficientRevenue)
    else None
  }

  // A transfer out of revenue, skipped when there is nothing to move.
  function Pay(b: Book, to: Account, amount: int, name: TxName): Posting {
    Transfer(b, Revenue, to, amount, Plain, Some(name))
  }

  function PayIfAny(b: Book, to: Account, amount: int, name: TxName): Option<Book> {
    if amount <= 0 then Some(b)
    else if Pay(b, to, amount, name).Posted? then Some(Pay(b, to, amount, name).book)
    else None
  }

  function EventOf(x: Claim, group: nat): RevenueEvent {
    var s := SplitOf(x.gross, x.expense, x.ratio);
    RevenueEvent(x.order, x.gross, x.expense, s.net, x.consumed, s.mission, s.reserve, group)
  }

  // The transaction group stands for a fresh uuid: it is the number of events so far.
  function Reconcile(b: Book, events: seq<RevenueEvent>, x: Claim): Reconciliation {
    var group := |events|;
    var s := SplitOf(x.gross, x.expense, x.ratio);
    if Objection(b, events, x).Some? then Objected(Objection(b, events, x).value, b)
    else
      var b1 := PayIfAny(b, Treasury, s.cost, SurplusCost(group));
      if b1.None? then Objected(LedgerRefused, b)
      else
        var b2 := PayIfAny(b1.value, SurplusReserve, s.reserve, SurplusKept(group));
        if b2.None? then Objected(LedgerRefused, b1.value)
        else
          var b3 := PayIfAny(b2.value, Treasury, s.mission, SurplusMission(group));
          if b3.None? then Objected(LedgerRefused, b2.value)
          else Settled(b3.value, EventOf(x, group))
  }

  // Every unit of the bounty has one destination.
  lemma SplitIsExact(gross: nat, expense: nat, ratio: real)
    requires 0.0 <= ratio <= 1.0
    ensures var s := SplitOf(gross, expense, ratio);
            && s.cost + s.reserve + s.mission == gross
            && 0 <= s.cost <= expense && 0 <= s.reserve <= s.net && 0 <= s.mission <= s.net
            && s.net == (if gross >= expense then gross - expense else 0)
            && s.reserve as real <= Portion(s.net, ratio) < (s.reserve + 1) as real
  {
    var net := if gross >= expense then gross - expense else 0;
    PortionWithin(net, ratio);
    assert Portion(0, ratio) == 0.0;
    hide Portion;
    FloorWithin(Portion(net, ratio), net);
  }

  lemma PortionWithin(net: nat, ratio: real)
    requires 0.0 <= ratio <= 1.0
    ensures 0.0 <= Portion(net, ratio) <= net as real
  {
    var x := net as real;
    NonNegativeProduct(x, ratio);
    NonNegativeProduct(x, 1.0 - ratio);
    assert x * (1.0 - ratio) == x - x * ratio;
  }

  lemma NonNegativeProduct(x: real, y: real)
    requires x >= 0.0 && y >= 0.0
    ensures x * y >= 0.0
  {}

  lemma FloorWithin(y: real, n: nat)
    requires 0.0 <= y <= n as real
    ensures 0 <= y.Floor <= n && y.Floor as real <= y < (y.Floor + 1) as real
  {}

  function SurplusGroup(t: TxId): Option<nat> {
    if t.Generated? then None
    else match t.name
      case SurplusCost(g) => Some(g)
      case SurplusKept(g) => Some(g)
      case SurplusMission(g) => Some(g)
      case _ => None
  }

  ghost predicate FreshFrom(b: Book, group: nat) {
    forall t :: t in b.txIds && SurplusGroup(t).Some? ==> SurplusGroup(t).value < group
  }

  // What one payment out of revenue does.
  ghost predicate Paid(b: Book, b': Book, to: Account, amount: int, name: TxName) {
    && Valid(b')
    && (forall a :: Balance(b', a) == Balance(b, a) + (if a == to then amount else 0) - (if a == Revenue then amount else 0))
    && b.txIds <= b'.txIds <= b.txIds + {Chosen(name)}
  }

  lemma PaymentWorks(b: Book, to: Account, amount: int, name: TxName)
    requires Valid(b) && to != Revenue && 0 <= amount <= Balance(b, Revenue) && Chosen(name) !in b.txIds
    ensures var r := PayIfAny(b, to, amount, name); r.Some? && Paid(b, r.value, to, amount, name)
  {
    hide Valid, Transfer, Balance;
    TransferIs(b, Revenue, to, amount, Plain, name);
    TransferKeepsValid(b, Revenue, to, amount, Plain, Some(name));
  }

  // The reconciler is all or nothing: it refuses exactly for a stated objection and then the books
  // are untouched; otherwise all the bounty leaves revenue, split as computed.
  lemma ReconcileAllOrNothing(b: Book, events: seq<RevenueEvent>, x: Claim)
    requires Valid(b) && FreshFrom(b, |events|)
    ensures var r := Reconcile(b, events, x);
            && (r.Objected? <==> Objection(b, events, x).Some?)
            && (r.Objected? ==> r.reason == Objection(b, events, x).value && r.book == b)
            && (r.Settled? ==>
                  var s := SplitOf(x.gross, x.expense, x.ratio);
                  && r.event == EventOf(x, |events|) && Valid(r.book) && FreshFrom(r.book, |events| + 1)
                  && Moved(b, r.book, s))
  {
    if Objection(b, events, x).None? {
      var s, g := SplitOf(x.gross, x.expense, x.ratio), |events|;
      SplitIsExact(x.gross, x.expense, x.ratio);
      assert Chosen(SurplusCost(g)) !in b.txIds && Chosen(SurplusKept(g)) !in b.txIds && Chosen(SurplusMission(g)) !in b.txIds by {
        assert SurplusGroup(Chosen(SurplusCost(g))) == SurplusGroup(Chosen(SurplusKept(g))) == SurplusGroup(Chosen(SurplusMission(g))) == Some(g);
      }
      hide Valid, PayIfAny, SplitOf, SurplusGroup;
      PaymentWorks(b, Treasury, s.cost, SurplusCost(g));
      var b1 := PayIfAny(b, Treasury, s.cost, SurplusCost(g)).value;
      PaymentWorks(b1, SurplusReserve, s.reserve, SurplusKept(g));
      var b2 := PayIfAny(b1, SurplusReserve, s.reserve, SurplusKept(g)).value;
      PaymentWorks(b2, Treasury, s.mission, SurplusMission(g));
      var b3 := PayIfAny(b2, Treasury, s.mission, SurplusMission(g)).value;
      ThreePayments(b, b1, b2, b3, s, g);
    }
  }

  ghost predicate Moved(b: Book, b': Book, s: Split) {
    && Balance(b', Revenue) == Balance(b, Revenue) - s.cost - s.reserve - s.mission
    && Balance(b', Treasury) == Balance(b, Treasury) + s.cost + s.mission
    && Balance(b', SurplusReserve) == Balance(b, SurplusReserve) + s.reserve
    && (forall a :: a != Revenue && a != Treasury && a != SurplusReserve ==> Balance(b', a) == Balance(b, a))
    && b.txIds <= b'.txIds && (forall t :: t in b'.txIds - b.txIds ==> t.Chosen? && SurplusGroup(t).Some?)
  }

  lemma ThreePayments(b: Book, b1: Book, b2: Book, b3: Book, s: Split, g: nat)
    requires FreshFrom(b, g) && Paid(b, b1, Treasury, s.cost, SurplusCost(g))
    requires Paid(b1, b2, SurplusReserve, s.reserve, SurplusKept(g)) && Paid(b2, b3, Treasury, s.mission, SurplusMission(g))
    ensures Moved(b, b3, s) && FreshFrom(b3, g + 1)
  {
    hide Valid, Balance;
  }

  // ---------- one mission ----------

  // The purchase loop carries the ledger all parts share.
  datatype Firm = Firm(loop: PL.Loop, events: seq<RevenueEvent>)

  // A work order and what the outside world answers while it is carried out.
  datatype Job = Job(order: nat, bounty: int, required: int, credits: int, hasLoop: bool, budget: Option<int>,
                     answers: PL.Answers, workDone: bool, receipt: Receipt, verifierSigned: bool, consumed: int, stored: bool)

  datatype WorkStatus = InProgress | Rejected | Verified | SettledOrder

  datatype Config = Config(loop: PL.Config, ratio: real)

  datatype Acquisition =
    | Acquired(loop: PL.Loop, expense: int, refund: int)
    | Declined(loop: PL.Loop, expense: int, refund: int)
    | StepRaised(loop: PL.Loop)

  // `Verified` as a final status means an exception escaped after verification, `InProgress` one
  // escaped from the purchase step. `refund` is what the purchase step put back into the treasury.
  datatype Outcome = Outcome(firm: Firm, status: WorkStatus, expense: int, refund: int, event: Option<RevenueEvent>, deposit: int)

  // Whole USDG units for a shortfall, rounded up, at least one.
  function WholeUnits(c: PL.Config, shortfall: int): int {
    PL.Max(1, (PL.UsdgForCreditNeed(c, shortfall) + 999_999) / 1_000_000)
  }

  function Obtain(c: PL.Config, l: PL.Loop, j: Job): (r: Acquisition)
    requires PL.WellFormed(l)
    ensures PL.WellFormed(r.loop)
  {
    if j.credits >= j.required then Acquired(l, 0, 0)
    else if !j.hasLoop then Declined(l, 0, 0)
    else if j.budget.Some? && WholeUnits(c, j.required - j.credits) > j.budget.value then Declined(l, 0, 0)
    else
      var r := PL.Step(c, l, j.answers);
      if r.Raised? then StepRaised(r.loop)
      else
        var before, after := Balance(l.book, Treasury), Balance(r.loop.book, Treasury);
        var verified := |r.loop.completed| > |l.completed|;
        if verified || r.loop.status == PL.ObjectiveComplete || r.loop.acquired >= j.required
        then Acquired(r.loop, PL.Max(0, before - after), PL.Max(0, after - before))
        else Declined(r.loop, PL.Max(0, before - after), PL.Max(0, after - before))
  }

  function ClaimOf(j: Job, expense: int, ratio: real): Claim {
    Claim(j.order, j.receipt, j.stored, j.bounty, expense, j.consumed, ratio)
  }

  function Earn(c: Config, f: Firm, j: Job, expense: int, refund: int): Outcome {
    var d := Deposit(f.loop.book, j.bounty, None);
    if d.Refused? then Outcome(f, Verified, expense, refund, None, 0)
    else
      match Reconcile(d.book, f.events, ClaimOf(j, expense, c.ratio))
      case Objected(_, book) => Outcome(f.(loop := f.loop.(book := book)), Verified, expense, refund, None, j.bounty)
      case Settled(book, e) =>
        Outcome(Firm(f.loop.(book := book), f.events + [e]), SettledOrder, expense, refund, Some(e), j.bounty)
  }

  function Execute(c: Config, f: Firm, j: Job): (o: Outcome)
    requires PL.WellFormed(f.loop)
    ensures PL.WellFormed(o.firm.loop)
  {
    match Obtain(c.loop, f.loop, j)
    case StepRaised(l) => Outcome(f.(loop := l), InProgress, 0, 0, None, 0)
    case Declined(l, expense, refund) => Outcome(f.(loop := l), Rejected, expense, refund, None, 0)
    case Acquired(l, expense, refund) =>
      if !j.workDone || !j.receipt.accepted || !j.verifierSigned
      then Outcome(f.(loop := l), Rejected, expense, refund, None, 0)
      else Earn(c, f.(loop := l), j, expense, refund)
  }

  // ---------- the purchase step leaves revenue and reserve alone ----------

  ghost predicate Frame(b: Book, b': Book) {
    && Balance(b', Revenue) == Balance(b, Revenue) && Balance(b', SurplusReserve) == Balance(b, SurplusReserve)
    && b.txIds <= b'.txIds
    && (forall t :: t in b'.txIds && t !in b.txIds ==> t.Chosen? && PL.LoopOp(t.name).Some?)
  }

  predicate Till(a: Account) { a == Treasury || a == Escrow || a == ExternalSink }

  lemma MoveFrame(l: PL.Loop, from: Account, to: Account, op: nat, name: TxName)
    requires op < |l.ops| && Till(from) && Till(to) && PL.LoopOp(name).Some?
    ensures Frame(l.book, PL.Move(l, from, to, op, name).loop.book)
  {}

  lemma ReleaseFrame(l: PL.Loop, to: Account, op: nat, name: TxName)
    requires op < |l.ops| && Till(to) && PL.LoopOp(name).Some?
    ensures Frame(l.book, PL.Release(l, to, op, name).loop.book)
  {
    hide PL.Move, Frame;
    MoveFrame(l, Escrow, to, op, name);
    FrameSame(l.book);
  }

  lemma FrameSame(b: Book)
    ensures Frame(b, b)
  {}

  lemma FrameTrans(x: Book, y: Book, z: Book)
    requires Frame(x, y) && Frame(y, z)
    ensures Frame(x, z)
  {}

  lemma AnsweredFrame(l: PL.Loop, op: nat, intent: PL.Intent, a: PL.Answers)
    requires op < |l.ops| && PL.WellFormed(l)
    ensures Frame(l.book, PL.Answered(l, op, intent, a).loop.book)
  {
    assert PL.LoopOp(LoopRefund(op)).Some? && PL.LoopOp(LoopRejected(op)).Some? && PL.LoopOp(LoopSettle(op)).Some?;
    hide PL.Release, Frame, PL.LoopOp;
    FrameSame(l.book);
    ReleaseFrame(l, Treasury, op, LoopRefund(op));
    ReleaseFrame(l, Treasury, op, LoopRejected(op));
    ReleaseFrame(l, ExternalSink, op, LoopSettle(op));
  }

  lemma SubmitFrame(l: PL.Loop, op: nat, intent: PL.Intent, a: PL.Answers)
    requires op < |l.ops| && PL.WellFormed(l)
    ensures Frame(l.book, PL.Submit(l, op, intent, a).loop.book)
  {
    hide PL.Answered, Frame;
    AnsweredFrame(l.(dispatches := l.dispatches + 1), op, intent, a);
  }

  lemma ExecuteFrame(l: PL.Loop, intent: PL.Intent, a: PL.Answers)
    requires PL.WellFormed(l)
    ensures Frame(l.book, PL.ExecuteAuthorized(l, intent, a).loop.book)
  {
    var op := |l.ops|;
    var created := l.(ops := l.ops + [PL.Operation(intent, PL.Unresolved)]);
    assert PL.LoopOp(LoopEscrow(op)).Some?;
    hide PL.Move, PL.Submit, Frame, PL.LoopOp;
    FrameSame(l.book);
    MoveFrame(created, Treasury, Escrow, op, LoopEscrow(op));
    var r := PL.Move(created, Treasury, Escrow, op, LoopEscrow(op));
    if r.Done? {
      SubmitFrame(r.loop, op, intent, a);
      FrameTrans(l.book, r.loop.book, PL.Submit(r.loop, op, intent, a).loop.book);
    }
  }

  lemma ReconcileFrame(c: PL.Config, l: PL.Loop, a: PL.Answers)
    requires PL.WellFormed(l)
    ensures Frame(l.book, PL.HandleReconcile(c, l, a).loop.book)
  {
    FrameSame(l.book);
    if l.pendingOp.Some? {
      var op := l.pendingOp.value;
      assert PL.LoopOp(PurchaseCommit(op)).Some? && PL.LoopOp(PurchaseRollback(op)).Some?;
      hide PL.Release, Frame, PL.LoopOp, PL.Verify;
      ReleaseFrame(l, Treasury, op, PurchaseRollback(op));
      ReleaseFrame(l, ExternalSink, op, PurchaseCommit(op));
    }
  }

  lemma StepFrame(c: PL.Config, l: PL.Loop, a: PL.Answers)
    requires PL.WellFormed(l)
    ensures Frame(l.book, PL.Step(c, l, a).loop.book)
  {
    hide PL.ExecuteAuthorized, PL.HandleReconcile, Frame, PL.Sized, PL.NextIntent;
    FrameSame(l.book);
    ReconcileFrame(c, l, a);
    if l.pendingIntent.Some? { ExecuteFrame(l.(status := PL.Ready), l.pendingIntent.value, a); }
    ExecuteFrame(l.(iteration := l.iteration + 1), PL.NextIntent(c, l), a);
  }

  // ---------- the invariant ----------

  ghost predicate EachOnce(events: seq<RevenueEvent>) {
    forall i, j :: 0 <= i < j < |events| ==> events[i].order != events[j].order
  }

  ghost predicate Inv(c: Config, f: Firm, sink: int) {
    && PL.Inv(c.loop, f.loop, sink)
    && FreshFrom(f.loop.book, |f.events|)
    && EachOnce(f.events)
  }

  // Revenue and reserve movements are invisible to the purchase loop.
  lemma LoopInvFrame(c: PL.Config, l: PL.Loop, b: Book, sink: int)
    requires PL.Inv(c, l, sink) && Valid(b) && l.book.txIds <= b.txIds
    requires Balance(b, Escrow) == Balance(l.book, Escrow) && Balance(b, ExternalSink) == Balance(l.book, ExternalSink)
    requires forall t :: t in b.txIds && t !in l.book.txIds && t.Chosen? ==> PL.LoopOp(t.name).None?
    ensures PL.Inv(c, l.(book := b), sink)
  {
    assert forall op: nat :: PL.LoopOp(PurchaseCommit(op)).Some? && PL.LoopOp(PurchaseRollback(op)).Some?;
    hide Valid, PL.History, PL.LoopOp, PL.Paid;
  }

  lemma FrameKeepsFresh(b: Book, b': Book, group: nat)
    requires Frame(b, b') && FreshFrom(b, group)
    ensures FreshFrom(b', group)
  {
    forall t | t in b'.txIds && SurplusGroup(t).Some? ensures t in b.txIds {
      LoopNotSurplus(t);
    }
  }

  lemma LoopNotSurplus(t: TxId)
    ensures t.Chosen? && PL.LoopOp(t.name).Some? ==> SurplusGroup(t).None?
  {}

  // ---------- what a mission does to the three accounts ----------

  // Read off the outcome alone.
  function TreasuryEffect(o: Outcome): int {
    o.refund - o.expense + (if o.event.None? then 0 else
      var e := o.event.value; PL.Min(e.gross, e.expense) + e.toMission)
  }

  function RevenueEffect(o: Outcome): int { if o.event.None? then o.deposit else 0 }

  function ReserveEffect(o: Outcome): int { if o.event.None? then 0 else o.event.value.toReserve }

  ghost predicate Accounted(b: Book, b': Book, o: Outcome) {
    && Balance(b', Treasury) == Balance(b, Treasury) + TreasuryEffect(o)
    && Balance(b', Revenue) == Balance(b, Revenue) + RevenueEffect(o)
    && Balance(b', SurplusReserve) == Balance(b, SurplusReserve) + ReserveEffect(o)
  }

  // A settled mission whose bounty covers its expense leaves the treasury up by the mission
  // allocation; otherwise it is down by the shortfall.
  lemma SettledTreasuryEffect(c: Config, f: Firm, j: Job)
    requires PL.WellFormed(f.loop) && Execute(c, f, j).status == SettledOrder
    ensures var o := Execute(c, f, j); var e := o.event.value;
            && o.event.Some? && e.order == j.order && e.gross == j.bounty && e.expense == o.expense
            && TreasuryEffect(o) == o.refund + (if e.gross >= e.expense then e.toMission else e.gross - e.expense)
  {
    hide PL.Step, Transfer, PayIfAny, Objection;
  }

  lemma DepositFrame(b: Book, amount: int)
    requires Valid(b)
    ensures var d := Deposit(b, amount, None);
            && (d.Posted? <==> amount > 0)
            && (d.Posted? ==>
                  && Valid(d.book) && b.txIds <= d.book.txIds
                  && (forall t :: t in d.book.txIds - b.txIds ==> t.Generated?)
                  && forall a :: Balance(d.book, a) == Balance(b, a) + (if a == Revenue then amount else 0))
  {
    DepositKeepsValid(b, amount, None);
  }

  lemma EarnKeepsInv(c: Config, f: Firm, j: Job, expense: int, refund: int, sink: int)
    requires Inv(c, f, sink) && expense >= 0
    ensures var o := Earn(c, f, j, expense, refund);
            && Inv(c, o.firm, sink)
            && Accounted(f.loop.book, o.firm.loop.book, o.(expense := 0, refund := 0))
            && o.expense == expense && o.refund == refund
            && (o.event.Some? <==> o.status == SettledOrder) && (o.event.Some? ==> o.event.value.expense == expense)
  {
    hide PL.Inv, Valid, Reconcile;
    assert PL.Money(f.loop, sink) && Valid(f.loop.book) by { LoopIsSound(c.loop, f.loop, sink); }
    var b := f.loop.book;
    DepositFrame(b, j.bounty);
    var d := Deposit(b, j.bounty, None);
    if d.Posted? {
      var x := ClaimOf(j, expense, c.ratio);
      assert FreshFrom(d.book, |f.events|) by { assert forall t :: t in d.book.txIds && SurplusGroup(t).Some? ==> t in b.txIds; }
      ReconcileAllOrNothing(d.book, f.events, x);
      hide Deposit, FreshFrom, Objection;
      var r := Reconcile(d.book, f.events, x);
      if r.Settled? {
        SplitIsExact(j.bounty, expense, c.ratio);
        NewEvent(d.book, f.events, x);
        SurplusNotLoop(d.book, r.book);
      }
      LoopInvFrame(c.loop, f.loop, r.book, sink);
    }
  }

  lemma LoopIsSound(c: PL.Config, l: PL.Loop, sink: int)
    requires PL.Inv(c, l, sink)
    ensures PL.Money(l, sink) && Valid(l.book) && PL.WellFormed(l)
  {}

  lemma SurplusNotLoop(b: Book, b': Book)
    requires forall t :: t in b'.txIds - b.txIds ==> t.Chosen? && SurplusGroup(t).Some?
    ensures forall t :: t in b'.txIds - b.txIds && t.Chosen? ==> PL.LoopOp(t.name).None?
  {
    forall t | t in b'.txIds - b.txIds && t.Chosen? ensures PL.LoopOp(t.name).None? { LoopNotSurplus(t); }
  }

  lemma NewEvent(b: Book, events: seq<RevenueEvent>, x: Claim)
    requires Objection(b, events, x).None? && EachOnce(events)
    ensures EachOnce(events + [EventOf(x, |events|)])
  {
    forall i | 0 <= i < |events| ensures events[i].order != x.order { assert events[i] in events; }
  }

  lemma ObtainKeepsInv(c: Config, f: Firm, j: Job, sink: int)
    requires Inv(c, f, sink)
    ensures var r := Obtain(c.loop, f.loop, j);
            && Inv(c, f.(loop := r.loop), sink)
            && Frame(f.loop.book, r.loop.book)
            && (r.StepRaised? ==> !c.loop.tenantMatches && Balance(r.loop.book, Treasury) == Balance(f.loop.book, Treasury))
            && (!r.StepRaised? ==>
                  r.expense >= 0 && Balance(r.loop.book, Treasury) == Balance(f.loop.book, Treasury) - r.expense + r.refund)
  {
    hide PL.Inv, PL.Step, Valid, Frame, FreshFrom, WholeUnits;
    LoopIsSound(c.loop, f.loop, sink);
    FrameSame(f.loop.book);
    PL.StepKeepsInv(c.loop, f.loop, j.answers, sink);
    StepFrame(c.loop, f.loop, j.answers);
    FrameKeepsFresh(f.loop.book, PL.Step(c.loop, f.loop, j.answers).loop.book, |f.events|);
    RaisedUntouched(c.loop, f.loop, j.answers, sink);
  }

  // A step raises only over a foreign tenant, before any money moves.
  lemma RaisedUntouched(c: PL.Config, l: PL.Loop, a: PL.Answers, sink: int)
    requires PL.Inv(c, l, sink)
    ensures PL.Step(c, l, a).Raised? ==> !c.tenantMatches && PL.Step(c, l, a).loop.book == l.book
  {
    hide Valid;
    PL.StepKeepsInv(c, l, a, sink);
    hide PL.HandleReconcile, PL.ExecuteAuthorized;
    if !PL.ObjectiveMet(l) {
      if l.status == PL.WaitingHuman { PL.HumanKeepsInv(c, l, a, sink); }
      else if l.status == PL.WaitingReconcile { PL.ReconcileKeepsInv(c, l, a, sink); }
      else if l.status == PL.Ready { BeginRaises(c, l, a, sink); }
    }
  }

  lemma BeginRaises(c: PL.Config, l: PL.Loop, a: PL.Answers, sink: int)
    requires PL.Inv(c, l, sink) && l.status == PL.Ready && !PL.ObjectiveMet(l)
    ensures PL.Begin(c, l, a).Raised? ==> !c.tenantMatches && PL.Begin(c, l, a).loop.book == l.book
  {
    hide PL.Inv;
    PL.BeginKeepsInv(c, l, a, sink);
    hide PL.ExecuteAuthorized, PL.Sized, PL.NextIntent;
  }

  lemma AccountedFrom(b: Book, b1: Book, b2: Book, o: Outcome)
    requires Balance(b1, Treasury) == Balance(b, Treasury) - o.expense + o.refund
    requires Balance(b1, Revenue) == Balance(b, Revenue) && Balance(b1, SurplusReserve) == Balance(b, SurplusReserve)
    requires Accounted(b1, b2, o.(expense := 0, refund := 0))
    ensures Accounted(b, b2, o)
  {
    hide Balance;
  }

  lemma AccountedSame(b: Book, expense: int, refund: int, before: Book)
    requires Balance(b, Treasury) == Balance(before, Treasury) - expense + refund
    requires Balance(b, Revenue) == Balance(before, Revenue) && Balance(b, SurplusReserve) == Balance(before, SurplusReserve)
    ensures forall f, s :: Accounted(before, b, Outcome(f, s, expense, refund, None, 0))
  {
    hide Balance;
  }

  lemma MissionIsAccounted(c: Config, f: Firm, j: Job, sink: int)
    requires Inv(c, f, sink)
    ensures PL.WellFormed(f.loop)
    ensures var o := Execute(c, f, j); Inv(c, o.firm, sink) && Accounted(f.loop.book, o.firm.loop.book, o)
    ensures var o := Execute(c, f, j); o.event.Some? <==> o.status == SettledOrder
  {
    LoopIsSound(c.loop, f.loop, sink);
    hide Inv, Obtain, Earn, Frame, PL.WellFormed, Balance, Accounted;
    ObtainKeepsInv(c, f, j, sink);
    var r := Obtain(c.loop, f.loop, j);
    FrameMeans(f.loop.book, r.loop.book);
    AccountedSame(r.loop.book, if r.StepRaised? then 0 else r.expense, if r.StepRaised? then 0 else r.refund, f.loop.book);
    if r.Acquired? {
      EarnKeepsInv(c, f.(loop := r.loop), j, r.expense, r.refund, sink);
      var o := Earn(c, f.(loop := r.loop), j, r.expense, r.refund);
      AccountedFrom(f.loop.book, r.loop.book, o.firm.loop.book, o);
    }
  }

  // A mission leaves its bounty stranded in revenue exactly when the deposit was made and the
  // reconciler then refused: a bad signature, a second settlement of the same order, a bad ratio.
  lemma StrandedIff(c: Config, f: Firm, j: Job, sink: int)
    requires Inv(c, f, sink)
    ensures PL.WellFormed(f.loop)
    ensures var o := Execute(c, f, j); var r := Obtain(c.loop, f.loop, j);
            Balance(o.firm.loop.book, Revenue) != Balance(f.loop.book, Revenue) <==>
              && r.Acquired? && j.workDone && j.receipt.accepted && j.verifierSigned && j.bounty > 0
              && (!j.receipt.signed || j.receipt.order != j.order || Reconciled(f.events, j.order) || j.stored
                  || !(0.0 <= c.ratio <= 1.0))
  {
    MissionIsAccounted(c, f, j, sink);
    hide Inv, Frame, Obtain, Earn, Accounted;
    ObtainKeepsInv(c, f, j, sink);
    var r := Obtain(c.loop, f.loop, j);
    assert Balance(r.loop.book, Revenue) == Balance(f.loop.book, Revenue) by { FrameMeans(f.loop.book, r.loop.book); }
    if r.Acquired? && j.workDone && j.receipt.accepted && j.verifierSigned { EarnStrandedIff(c, f.(loop := r.loop), j, r.expense, r.refund, sink); }
  }

  lemma FrameMeans(b: Book, b': Book)
    requires Frame(b, b')
    ensures Balance(b', Revenue) == Balance(b, Revenue) && Balance(b', SurplusReserve) == Balance(b, SurplusReserve)
  {}

  lemma ObjectionIff(b: Book, events: seq<RevenueEvent>, x: Claim)
    requires x.receipt.accepted && x.gross > 0 && x.expense >= 0 && Balance(b, Revenue) >= x.gross
    ensures Objection(b, events, x).Some? <==>
              (!x.receipt.signed || x.receipt.order != x.order || Reconciled(events, x.order) || x.stored
               || !(0.0 <= x.ratio <= 1.0))
  {}

  lemma EarnStrandedIff(c: Config, f: Firm, j: Job, expense: int, refund: int, sink: int)
    requires Inv(c, f, sink) && expense >= 0 && j.receipt.accepted
    ensures Balance(Earn(c, f, j, expense, refund).firm.loop.book, Revenue) != Balance(f.loop.book, Revenue) <==>
              && j.bounty > 0
              && (!j.receipt.signed || j.receipt.order != j.order || Reconciled(f.events, j.order) || j.stored
                  || !(0.0 <= c.ratio <= 1.0))
  {
    LoopIsSound(c.loop, f.loop, sink);
    DepositFrame(f.loop.book, j.bounty);
    var d := Deposit(f.loop.book, j.bounty, None);
    if d.Posted? {
      assert FreshFrom(d.book, |f.events|) by {
        assert forall t :: t in d.book.txIds && SurplusGroup(t).Some? ==> t in f.loop.book.txIds;
      }
      assert Balance(f.loop.book, Revenue) >= 0;
      ReconcileAllOrNothing(d.book, f.events, ClaimOf(j, expense, c.ratio));
      ObjectionIff(d.book, f.events, ClaimOf(j, expense, c.ratio));
      hide Valid, Inv, Deposit, Reconcile, FreshFrom, PL.WellFormed, Objection, Balance, Reconciled;
      if 0.0 <= c.ratio <= 1.0 { SplitIsExact(j.bounty, expense, c.ratio); }
    }
  }

  // ---------- series of missions ----------

  function Run(c: Config, f: Firm, jobs: seq<Job>): (f': Firm)
    requires PL.WellFormed(f.loop)
    ensures PL.WellFormed(f'.loop)
    decreases |jobs|
  {
    if jobs == [] then f else Run(c, Execute(c, f, jobs[0]).firm, jobs[1..])
  }

  datatype Totals = Totals(treasury: int, revenue: int, reserve: int)

  function Effects(c: Config, f: Firm, jobs: seq<Job>): Totals
    requires PL.WellFormed(f.loop)
    decreases |jobs|
  {
    if jobs == [] then Totals(0, 0, 0)
    else
      var o := Execute(c, f, jobs[0]);
      var rest := Effects(c, o.firm, jobs[1..]);
      Totals(TreasuryEffect(o) + rest.treasury, RevenueEffect(o) + rest.revenue, ReserveEffect(o) + rest.reserve)
  }

  // Over any series of missions the three accounts change by exactly what the outcomes report, and
  // no work order is reconciled twice.
  lemma {:induction false} SeriesIsAccounted(c: Config, f: Firm, jobs: seq<Job>, sink: int)
    requires Inv(c, f, sink)
    ensures PL.WellFormed(f.loop)
    ensures var f', t := Run(c, f, jobs), Effects(c, f, jobs);
            && Inv(c, f', sink) && EachOnce(f'.events) && f.events <= f'.events
            && Balance(f'.loop.book, Treasury) == Balance(f.loop.book, Treasury) + t.treasury
            && Balance(f'.loop.book, Revenue) == Balance(f.loop.book, Revenue) + t.revenue
            && Balance(f'.loop.book, SurplusReserve) == Balance(f.loop.book, SurplusReserve) + t.reserve
    decreases |jobs|
  {
    LoopIsSound(c.loop, f.loop, sink);
    assert EachOnce(f.events);
    hide PL.Inv, PL.WellFormed, FreshFrom, Execute;
    if jobs != [] {
      MissionIsAccounted(c, f, jobs[0], sink);
      EventsGrow(c, f, jobs[0]);
      SeriesIsAccounted(c, Execute(c, f, jobs[0]).firm, jobs[1..], sink);
    }
  }

  // A firm about to start: nothing in escrow, nothing reconciled.
  ghost predicate Initial(c: Config, f: Firm) {
    PL.Initial(c.loop, f.loop) && f.events == [] && FreshFrom(f.loop.book, 0)
  }

  lemma InitialIsSound(c: Config, f: Firm)
    requires Initial(c, f)
    ensures Inv(c, f, Balance(f.loop.book, ExternalSink))
  {
    hide Valid, PL.History;
  }

  lemma EverySeriesIsSound(c: Config, start: Firm, jobs: seq<Job>)
    requires Initial(c, start)
    ensures PL.WellFormed(start.loop)
    ensures var f, t := Run(c, start, jobs), Effects(c, start, jobs);
            && EachOnce(f.events)
            && Balance(f.loop.book, Treasury) == Balance(start.loop.book, Treasury) + t.treasury
            && Balance(f.loop.book, Revenue) == Balance(start.loop.book, Revenue) + t.revenue
            && Balance(f.loop.book, SurplusReserve) == Balance(start.loop.book, SurplusReserve) + t.reserve
  {
    InitialIsSound(c, start);
    hide Inv;
    SeriesIsAccounted(c, start, jobs, Balance(start.loop.book, ExternalSink));
  }

  lemma EventsGrow(c: Config, f: Firm, j: Job)
    requires PL.WellFormed(f.loop)
    ensures f.events <= Execute(c, f, j).firm.events
  {
    hide Obtain, Reconcile;
  }

  // ---------- the self-funded budget ----------

  // The preflight admits a shortfall under a budget exactly when the sized native amount fits.
  lemma BudgetAdmitsIff(c: PL.Config, shortfall: int, budget: int)
    ensures WholeUnits(c, shortfall) <= budget <==>
              budget >= 1 && PL.UsdgForCreditNeed(c, shortfall) <= budget * 1_000_000
  {}

  // What a step costs the treasury: releases put credits back or pay the sink out of escrow.
  lemma ReleaseCost(l: PL.Loop, to: Account, op: nat, name: TxName)
    requires op < |l.ops| && (to == Treasury || to == ExternalSink)
    ensures Balance(PL.Release(l, to, op, name).loop.book, Treasury) >= Balance(l.book, Treasury)
  {
    TransferIs(l.book, Escrow, to, l.ops[op].intent.amount, Mentions(op), name);
    hide Transfer, Balance;
  }

  lemma AnsweredCost(l: PL.Loop, op: nat, intent: PL.Intent, a: PL.Answers)
    requires op < |l.ops| && PL.WellFormed(l)
    ensures Balance(PL.Answered(l, op, intent, a).loop.book, Treasury) >= Balance(l.book, Treasury)
    ensures a.outcome == PL.TimedOut ==> PL.Answered(l, op, intent, a).loop.book == l.book
  {
    hide PL.Release, Balance, PL.Verify;
    ReleaseCost(l, Treasury, op, LoopRefund(op));
    ReleaseCost(l, Treasury, op, LoopRejected(op));
    ReleaseCost(l, ExternalSink, op, LoopSettle(op));
  }

  lemma SubmitCost(l: PL.Loop, op: nat, intent: PL.Intent, a: PL.Answers)
    requires op < |l.ops| && PL.WellFormed(l)
    ensures Balance(PL.Submit(l, op, intent, a).loop.book, Treasury) >= Balance(l.book, Treasury)
    ensures a.outcome == PL.TimedOut ==> PL.Submit(l, op, intent, a).loop.book == l.book
  {
    hide PL.Answered, Balance;
    AnsweredCost(l.(dispatches := l.dispatches + 1), op, intent, a);
  }

  // A funded execution costs at most the intent's amount, and exactly that when the provider times out.
  lemma ExecutionCost(l: PL.Loop, intent: PL.Intent, a: PL.Answers, sink: int)
    requires PL.Money(l, sink) && l.pendingOp.None? && intent.amount > 0 && Balance(l.book, Treasury) >= intent.amount
    ensures PL.WellFormed(l)
    ensures var after := Balance(PL.ExecuteAuthorized(l, intent, a).loop.book, Treasury);
            && after >= Balance(l.book, Treasury) - intent.amount
            && (a.outcome == PL.TimedOut ==> after == Balance(l.book, Treasury) - intent.amount)
  {
    var op, created := |l.ops|, PL.Created(l, intent);
    PL.FundingWorks(l, intent, sink);
    PL.FundingCharges(created, op);
    hide PL.Money, PL.Move, PL.Submit, PL.Funded, Balance, PL.LoopOp;
    SubmitCost(PL.Move(created, Treasury, Escrow, op, LoopEscrow(op)).loop, op, intent, a);
  }

  // The same for an intent the treasury may not cover: then it is not funded and costs nothing.
  lemma FundedCost(l: PL.Loop, intent: PL.Intent, a: PL.Answers, sink: int)
    requires PL.Money(l, sink) && l.pendingOp.None? && intent.amount > 0
    ensures PL.WellFormed(l)
    ensures var after := Balance(PL.ExecuteAuthorized(l, intent, a).loop.book, Treasury);
            && after >= Balance(l.book, Treasury) - Funded(l, intent.amount)
            && (a.outcome == PL.TimedOut ==> after == Balance(l.book, Treasury) - Funded(l, intent.amount))
  {
    if Balance(l.book, Treasury) >= intent.amount {
      hide PL.ExecuteAuthorized, Balance, PL.Money;
      ExecutionCost(l, intent, a, sink);
      MoneyIsFormed(l, sink);
    } else {
      hide PL.Money, Balance, PL.Move, PL.Submit;
      MoneyIsFormed(l, sink);
    }
  }

  lemma MoneyIsFormed(l: PL.Loop, sink: int)
    requires PL.Money(l, sink)
    ensures PL.WellFormed(l)
  {}

  function Funded(l: PL.Loop, amount: int): int {
    if Balance(l.book, Treasury) >= amount then amount else 0
  }

  // The most one step of the loop can cost, read off the loop: the intent a human has approved, or else
  // what the loop would size and buy now.
  function Exposure(c: PL.Config, l: PL.Loop): int {
    if PL.ObjectiveMet(l) then 0
    else if l.status == PL.WaitingHuman then
      (if l.pendingIntent.Some? && l.hasApproval then Funded(l, l.pendingIntent.value.amount) else 0)
    else if l.status == PL.Ready && c.tenantMatches && l.iteration < c.maxIterations && PL.Need(l) > 0 && PL.Sized(c, l) > 0
    then Funded(l, PL.Charge(PL.Sized(c, l)))
    else 0
  }

  // The answers of a policy that allows and a provider that does not come back.
  function Slow(): PL.Answers { PL.Answers(PL.Allow, PL.TimedOut, None) }

  // Over every state of a loop a step costs at most its exposure, and with slow answers exactly that.
  lemma StepCost(c: PL.Config, l: PL.Loop, a: PL.Answers, sink: int)
    requires PL.Inv(c, l, sink)
    ensures PL.WellFormed(l)
    ensures var after := Balance(PL.Step(c, l, a).loop.book, Treasury);
            && after >= Balance(l.book, Treasury) - Exposure(c, l)
            && (a == Slow() ==> after == Balance(l.book, Treasury) - Exposure(c, l))
  {
    LoopIsSound(c, l, sink);
    hide PL.Inv, Balance, PL.Sized, PL.Begin, PL.HandleReconcile, PL.HandleWaitingHuman, Funded, PL.Charge, PL.ObjectiveMet, PL.Need;
    if !PL.ObjectiveMet(l) {
      if l.status == PL.WaitingHuman { HumanCost(c, l, a, sink); }
      else if l.status == PL.WaitingReconcile { ReconcileCost(c, l, a); }
      else if l.status == PL.Ready { BeginCost(c, l, a, sink); }
    }
  }

  lemma HumanCost(c: PL.Config, l: PL.Loop, a: PL.Answers, sink: int)
    requires PL.Inv(c, l, sink) && l.status == PL.WaitingHuman && !PL.ObjectiveMet(l)
    ensures PL.WellFormed(l)
    ensures var after := Balance(PL.HandleWaitingHuman(l, a).loop.book, Treasury);
            && after >= Balance(l.book, Treasury) - Exposure(c, l)
            && (a == Slow() ==> after == Balance(l.book, Treasury) - Exposure(c, l))
  {
    LoopIsSound(c, l, sink);
    WaitingIsFunded(c, l, sink);
    FundedCost(l.(status := PL.Ready), l.pendingIntent.value, a, sink);
    hide PL.Inv, Balance, PL.ExecuteAuthorized, PL.Money;
  }

  lemma WaitingIsFunded(c: PL.Config, l: PL.Loop, sink: int)
    requires PL.Inv(c, l, sink) && l.status == PL.WaitingHuman
    ensures l.pendingIntent.Some? && l.pendingIntent.value.amount > 0 && l.pendingOp.None?
    ensures PL.Money(l.(status := PL.Ready), sink)
  {
    hide Valid, PL.LoopOp, PL.Paid, PL.History;
  }

  lemma ReconcileCost(c: PL.Config, l: PL.Loop, a: PL.Answers)
    requires PL.WellFormed(l)
    ensures Balance(PL.HandleReconcile(c, l, a).loop.book, Treasury) >= Balance(l.book, Treasury)
    ensures a == Slow() ==> PL.HandleReconcile(c, l, a).loop.book == l.book
  {
    if l.pendingOp.Some? {
      ReleaseCost(l, Treasury, l.pendingOp.value, PurchaseRollback(l.pendingOp.value));
      ReleaseCost(l, ExternalSink, l.pendingOp.value, PurchaseCommit(l.pendingOp.value));
    }
    hide PL.Release, Balance;
  }

  lemma BeginCost(c: PL.Config, l: PL.Loop, a: PL.Answers, sink: int)
    requires PL.Inv(c, l, sink) && l.status == PL.Ready && !PL.ObjectiveMet(l)
    ensures PL.WellFormed(l)
    ensures var after := Balance(PL.Begin(c, l, a).loop.book, Treasury);
            && after >= Balance(l.book, Treasury) - Exposure(c, l)
            && (a == Slow() ==> after == Balance(l.book, Treasury) - Exposure(c, l))
  {
    hide PL.Inv, Balance, PL.ExecuteAuthorized, PL.Money, PL.NextIntent, PL.Sized, PL.Need, PL.Charge;
    MoneyCounted(c, l, sink);
    if PL.Sized(c, l) > 0 {
      SizedProposal(c, l, sink);
      var counted := l.(iteration := l.iteration + 1);
      FundedCost(counted, PL.NextIntent(c, l), a, sink);
      assert Funded(counted, PL.Charge(PL.Sized(c, l))) == Funded(l, PL.Charge(PL.Sized(c, l)));
    }
  }

  lemma SizedProposal(c: PL.Config, l: PL.Loop, sink: int)
    requires PL.Inv(c, l, sink) && l.status == PL.Ready && PL.Sized(c, l) > 0
    ensures PL.NextIntent(c, l).amount == PL.Charge(PL.Sized(c, l)) > 0
    ensures PL.NextIntent(c, l) !in l.completed && l.spent < c.maxCumulative
  {
    PL.ProposalIsAsSized(c, l);
    PL.ProposalIsNew(c, l, sink);
    hide PL.Inv, PL.NextIntent;
  }

  lemma MoneyCounted(c: PL.Config, l: PL.Loop, sink: int)
    requires PL.Inv(c, l, sink) && l.status == PL.Ready
    ensures PL.WellFormed(l) && PL.Money(l.(iteration := l.iteration + 1), sink) && l.pendingOp.None?
  {
    hide Valid, PL.LoopOp, PL.Paid, PL.History;
  }

  // A mission short of credits that the preflight admits under budget b.
  predicate AdmittedUnder(c: PL.Config, j: Job, b: int) {
    j.credits < j.required && j.hasLoop && j.budget == Some(b) && WholeUnits(c, j.required - j.credits) <= b
  }

  // The measured expense of an admitted mission is within its budget, whatever policy and provider
  // answer and whatever state the loop is in, exactly when the loop's exposure is: the preflight prices
  // the mission's shortfall, the loop buys for its own need or what a human approved.
  lemma BudgetHoldsIff(c: PL.Config, l: PL.Loop, j: Job, b: int, sink: int)
    requires PL.Inv(c, l, sink) && AdmittedUnder(c, j, b)
    ensures PL.WellFormed(l)
    ensures (forall a :: var r := Obtain(c, l, j.(answers := a)); r.StepRaised? || r.expense <= b) <==> Exposure(c, l) <= b
  {
    LoopIsSound(c, l, sink);
    forall a ensures var r := Obtain(c, l, j.(answers := a));
      && (r.StepRaised? || r.expense <= PL.Max(0, Exposure(c, l)))
      && (a == Slow() ==> r.StepRaised? || r.expense == PL.Max(0, Exposure(c, l)))
    {
      ExpenseIs(c, l, j, b, a, sink);
    }
    RaisingIsFree(c, l, Slow(), sink);
    BudgetPositive(c, j, b);
    ObtainRaises(c, l, j.(answers := Slow()));
    hide Obtain, Exposure, AdmittedUnder, PL.Inv, PL.Step;
    var r := Obtain(c, l, j.(answers := Slow()));
  }

  lemma BudgetPositive(c: PL.Config, j: Job, b: int)
    requires AdmittedUnder(c, j, b)
    ensures b >= 1
  {
    BudgetAdmitsIff(c, j.required - j.credits, b);
  }

  lemma ObtainRaises(c: PL.Config, l: PL.Loop, j: Job)
    requires PL.WellFormed(l)
    ensures Obtain(c, l, j).StepRaised? ==> PL.Step(c, l, j.answers).Raised?
  {
    hide PL.Step, WholeUnits;
  }

  // A step that raises is one with no exposure.
  lemma RaisingIsFree(c: PL.Config, l: PL.Loop, a: PL.Answers, sink: int)
    requires PL.Inv(c, l, sink)
    ensures PL.WellFormed(l)
    ensures a == Slow() && PL.Step(c, l, a).Raised? ==> Exposure(c, l) == 0
  {
    LoopIsSound(c, l, sink);
    StepCost(c, l, a, sink);
    RaisedUntouched(c, l, a, sink);
    hide PL.Inv, PL.Step, Exposure;
  }

  lemma ExpenseIs(c: PL.Config, l: PL.Loop, j: Job, b: int, a: PL.Answers, sink: int)
    requires PL.Inv(c, l, sink) && AdmittedUnder(c, j, b)
    ensures PL.WellFormed(l)
    ensures var r, most := Obtain(c, l, j.(answers := a)), PL.Max(0, Exposure(c, l));
            && (r.StepRaised? || r.expense <= most)
            && (a == Slow() ==> r.StepRaised? || r.expense == most)
  {
    hide PL.Inv, PL.Step, Balance, Exposure, Obtain, AdmittedUnder, PL.WellFormed;
    LoopIsSound(c, l, sink);
    StepCost(c, l, a, sink);
    ExpenseMeasured(c, l, j, b, a);
  }

  lemma ExpenseMeasured(c: PL.Config, l: PL.Loop, j: Job, b: int, a: PL.Answers)
    requires PL.WellFormed(l) && AdmittedUnder(c, j, b)
    ensures var r := Obtain(c, l, j.(answers := a));
            r.StepRaised? ||
            r.expense == PL.Max(0, Balance(l.book, Treasury) - Balance(PL.Step(c, l, a).loop.book, Treasury))
  {
    hide PL.Step, Balance, WholeUnits, PL.WellFormed;
  }

  // In particular the budget holds when the loop needs no more than the mission is short of: what it
  // would buy, or had a human approve, was sized for that need ...
  lemma AdmittedWithinBudget(c: PL.Config, l: PL.Loop, j: Job, b: int, sink: int)
    requires PL.Inv(c, l, sink) && AdmittedUnder(c, j, b) && PL.PendingAsSized(c, l)
    requires PL.Need(l) <= j.required - j.credits
    ensures PL.WellFormed(l)
    ensures var r := Obtain(c, l, j); r.StepRaised? || r.expense <= b
  {
    BudgetAdmitsIff(c, j.required - j.credits, b);
    NeedMonotone(c, PL.Need(l), j.required - j.credits);
    SizedWithin(c, l);
    MillionMonotone(PL.Sized(c, l), b);
    assert Exposure(c, l) <= b by { hide PL.Sized, PL.Need, WholeUnits, PL.Inv, Balance; }
    ExpenseIs(c, l, j, b, j.answers, sink);
    assert j.(answers := j.answers) == j;
    hide PL.Inv, Obtain, Balance, Exposure;
  }

  lemma SizedWithin(c: PL.Config, l: PL.Loop)
    ensures PL.Sized(c, l) <= PL.UsdgForCreditNeed(c, PL.Need(l))
  {}

  lemma MillionMonotone(u: int, budget: int)
    requires u <= budget * 1_000_000
    ensures u / 1_000_000 <= budget
  {}

  lemma NeedMonotone(c: PL.Config, need: int, more: int)
    requires need <= more
    ensures PL.UsdgForCreditNeed(c, need) <= PL.UsdgForCreditNeed(c, more)
  {
    var b := PL.Bps(c);
    if need > 0 {
      var u := PL.UsdgForCreditNeed(c, more);
      PL.SizeIsLeast(c, more, 0);
      PL.SizeIsLeast(c, need, u);
    }
  }

  // ... and this mission, one credit unit short of a million under a budget of one, settles with an
  // expense of fifty: its loop buys towards a target of fifty million.
  function EagerLoop(): PL.Loop {
    PL.Loop(50_000_000, 0, false, 0, 0, PL.Ready, [], false, None, None, [], 0, Open(1000))
  }

  function EagerConfig(): Config {
    Config(PL.Config(10, 100_000_000, 100_000_000, 10_000, true, true), 0.2)
  }

  function EagerJob(): Job {
    Job(7, 60, 1_000_000, 0, true, Some(1), PL.Ideal(EagerConfig().loop, EagerLoop()), true, Receipt(true, true, 7), true, 1, false)
  }

  lemma EagerIsAdmitted()
    ensures var c, f, j := EagerConfig(), Firm(EagerLoop(), []), EagerJob();
            && Inv(c, f, 0) && AdmittedUnder(c.loop, j, 1) && Exposure(c.loop, f.loop) == 50
  {
    hide PL.Inv, PL.Sized, WholeUnits, Balance, PL.Charge, PL.Need, PL.Fill, Inv, Open, PL.Ideal;
    OpenHolds(1000);
    EagerNumbers();
    EagerInv();
    InvHasLoop(EagerConfig(), Firm(EagerLoop(), []), 0);
  }

  lemma EagerInv()
    ensures Inv(EagerConfig(), Firm(EagerLoop(), []), 0)
  {
    var c, f := EagerConfig(), Firm(EagerLoop(), []);
    OpenIsUnused(1000);
    hide Open, Valid, FreshFrom, PL.UnusedFrom, Balance, Inv;
    assert PL.Initial(c.loop, f.loop);
    hide PL.Initial;
    InitialIsSound(c, f);
  }

  lemma InvHasLoop(c: Config, f: Firm, sink: int)
    requires Inv(c, f, sink)
    ensures PL.Inv(c.loop, f.loop, sink)
  {}

  lemma EagerNumbers()
    ensures var c, l := EagerConfig().loop, EagerLoop();
            && PL.Need(l) == 50_000_000 && PL.Sized(c, l) == 50_000_000 && PL.Charge(PL.Sized(c, l)) == 50
            && PL.Fill(c, PL.Sized(c, l)) == 50_000_000 && WholeUnits(c, 1_000_000) == 1
            && PL.Ideal(c, l).decision == PL.Allow
  {
    hide Open;
    var c := EagerConfig().loop;
    assert PL.UsdgForCreditNeed(c, 50_000_000) == 50_000_000;
    assert PL.UsdgForCreditNeed(c, 1_000_000) == 1_000_000;
  }

  lemma OpenIsUnused(initialTreasury: int)
    ensures var b := Open(initialTreasury);
            && Valid(b) && PL.UnusedFrom(b, 0) && FreshFrom(b, 0)
            && Balance(b, Escrow) == Balance(b, ExternalSink) == 0
  {
    OpenIsPlain(initialTreasury);
    var b := Open(initialTreasury);
    assert forall t :: t in b.txIds ==> t.Generated?;
    hide Valid;
  }

  lemma BudgetCanBeOverspent()
    ensures PL.WellFormed(EagerLoop())
    ensures var o := Execute(EagerConfig(), Firm(EagerLoop(), []), EagerJob());
            EagerJob().budget == Some(1) && o.status == SettledOrder && o.expense == 50
  {
    var c, f, j := EagerConfig(), Firm(EagerLoop(), []), EagerJob();
    EagerIsAdmitted();
    EagerObtains();
    var r := Obtain(c.loop, f.loop, j);
    ObtainKeepsInv(c, f, j, 0);
    hide Inv, Obtain, EagerLoop;
    EagerSettles(c, f.(loop := r.loop), j, r.expense, r.refund);
  }

  lemma EagerObtains()
    ensures PL.WellFormed(EagerLoop())
    ensures var r := Obtain(EagerConfig().loop, EagerLoop(), EagerJob()); r.Acquired? && r.expense == 50
  {
    EagerIsAdmitted();
    EagerNumbers();
    var c, l := EagerConfig().loop, EagerLoop();
    hide PL.Step, Inv, PL.Inv, Balance, PL.Ideal, PL.Fill, PL.Sized, PL.Charge, PL.Need, WholeUnits, Open, Exposure;
    OpenHolds(1000);
    InvHasLoop(EagerConfig(), Firm(EagerLoop(), []), 0);
    PL.IdealStep(c, l, 0);
    PL.StepKeepsInv(c, l, PL.Ideal(c, l), 0);
    LoopIsSound(c, l, 0);
  }

  lemma EagerSettles(c: Config, f: Firm, j: Job, expense: int, refund: int)
    requires Inv(c, f, 0) && expense >= 0 && c.ratio == 0.2 && f.events == []
    requires j.bounty == 60 && j.receipt == Receipt(true, true, j.order) && !j.stored
    ensures Earn(c, f, j, expense, refund).status == SettledOrder && Earn(c, f, j, expense, refund).expense == expense
  {
    LoopIsSound(c.loop, f.loop, 0);
    DepositFrame(f.loop.book, j.bounty);
    var d := Deposit(f.loop.book, j.bounty, None);
    FreshAfterDeposit(f.loop.book, d.book, |f.events|);
    assert Balance(f.loop.book, Revenue) >= 0;
    hide Valid, Inv, Deposit, Reconcile, FreshFrom, Objection, Balance, SplitOf, EventOf, PL.WellFormed;
    ReconcileAllOrNothing(d.book, f.events, ClaimOf(j, expense, c.ratio));
    ObjectionIff(d.book, f.events, ClaimOf(j, expense, c.ratio));
  }

  lemma FreshAfterDeposit(b: Book, b': Book, group: nat)
    requires FreshFrom(b, group) && forall t :: t in b'.txIds - b.txIds ==> t.Generated?
    ensures FreshFrom(b', group)
  {
    assert forall t :: t in b'.txIds && SurplusGroup(t).Some? ==> t in b.txIds;
  }

  // ... and its order carried out a second time, with credits at hand, is refused by the reconciler after
  // its bounty of sixty was deposited.
  function AgainJob(): Job { EagerJob().(credits := 1_000_000) }

  lemma SecondSettlementStrands()
    ensures PL.WellFormed(EagerLoop())
    ensures var first := Execute(EagerConfig(), Firm(EagerLoop(), []), EagerJob()).firm;
            var o := Execute(EagerConfig(), first, AgainJob());
            && o.status == Verified && o.event == None
            && Balance(o.firm.loop.book, Revenue) == Balance(first.loop.book, Revenue) + 60
  {
    hide Inv, Execute, EagerLoop, Balance, EagerConfig, EagerJob, AgainJob, Reconciled, Obtain;
    var c, f := EagerConfig(), Firm(EagerLoop(), []);
    EagerInv();
    BudgetCanBeOverspent();
    MissionIsAccounted(c, f, EagerJob(), 0);
    FirstIsReconciled(c, f, EagerJob(), 0);
    EagerIs();
    StrandsAgain(c, Execute(c, f, EagerJob()).firm);
  }

  lemma EagerIs()
    ensures EagerJob().order == 7 && EagerConfig().ratio == 0.2
  {
    hide PL.Ideal, EagerLoop;
  }

  lemma StrandsAgain(c: Config, f: Firm)
    requires Inv(c, f, 0) && Reconciled(f.events, 7) && c.ratio == 0.2
    ensures PL.WellFormed(f.loop)
    ensures var o := Execute(c, f, AgainJob());
            o.status == Verified && o.event == None && Balance(o.firm.loop.book, Revenue) == Balance(f.loop.book, Revenue) + 60
  {
    hide Inv, Balance, Reconciled, Execute, PL.Ideal, EagerLoop, Accounted, Obtain;
    MissionIsAccounted(c, f, AgainJob(), 0);
    StrandedIff(c, f, AgainJob(), 0);
    AgainIsRefused(c, f);
    AccountedRevenue(f.loop.book, Execute(c, f, AgainJob()));
  }

  lemma AccountedRevenue(b: Book, o: Outcome)
    requires Accounted(b, o.firm.loop.book, o)
    ensures Balance(o.firm.loop.book, Revenue) == Balance(b, Revenue) + RevenueEffect(o)
  {}

  lemma FirstIsReconciled(c: Config, f: Firm, j: Job, sink: int)
    requires PL.WellFormed(f.loop) && Execute(c, f, j).status == SettledOrder
    ensures Reconciled(Execute(c, f, j).firm.events, j.order)
  {
    SettledTreasuryEffect(c, f, j);
    var o := Execute(c, f, j);
    assert o.firm.events == f.events + [o.event.value] by { hide Obtain, Reconcile; }
    assert o.event.value in o.firm.events;
    hide Execute;
  }

  lemma AgainIsRefused(c: Config, f: Firm)
    requires PL.WellFormed(f.loop) && c.ratio == 0.2
    ensures Obtain(c.loop, f.loop, AgainJob()) == Acquired(f.loop, 0, 0)
    ensures var o := Execute(c, f, AgainJob());
            RevenueEffect(o) != 0 ==> o.status == Verified && o.event == None && RevenueEffect(o) == 60
  {
    hide Reconcile, PL.Step;
  }

  // ---------- the objects ----------

  // What ReconcileSurplus leaves behind.
  ghost predicate ReconcileEnds(r: Reconciliation, before: seq<RevenueEvent>, b: Book, events: seq<RevenueEvent>,
                                result: Option<RevenueEvent>) {
    && b == r.book
    && (r.Settled? ==> result == Some(r.event) && events == before + [r.event])
    && (r.Objected? ==> result == None && events == before)
  }

  class SurplusReconciler {
    const ledger: DoubleEntryLedger
    const reserveRatio: Ratio
    var events: seq<RevenueEvent>

    constructor (ledger: DoubleEntryLedger, reserveRatio: Ratio)
      ensures this.ledger == ledger && this.reserveRatio == reserveRatio && events == []
    {
      this.ledger, this.reserveRatio, events := ledger, reserveRatio, [];
    }

    method PayOut(to: Account, amount: int, name: TxName) returns (raised: bool)
      modifies ledger
      ensures var r := PayIfAny(old(ledger.State()), to, amount, name);
              (raised <==> r.None?) && ledger.State() == (if r.Some? then r.value else old(ledger.State()))
    {
      raised := false;
      if amount > 0 {
        hide Transfer;
        var refused := ledger.Move(Revenue, to, amount, Plain, Some(name));
        raised := refused.Some?;
      }
    }

    method AlreadySettled(order: nat) returns (found: bool)
      ensures found <==> Reconciled(events, order)
    {
      found := false;
      for i := 0 to |events|
        invariant !found && forall k :: 0 <= k < i ==> events[k].order != order
      {
        if events[i].order == order { return true; }
      }
    }

    // None: refused with an error.
    method ReconcileSurplus(x: Claim) returns (result: Option<RevenueEvent>)
      modifies this`events, ledger
      ensures ReconcileEnds(Reconcile(old(ledger.State()), old(events), x), old(events), ledger.State(), events, result)
    {
      hide PayIfAny, Reconciled;
      result := None;
      var settled := AlreadySettled(x.order);
      if !x.receipt.accepted || !x.receipt.signed || x.receipt.order != x.order || settled || x.stored
         || x.gross < 0 || x.expense < 0 || !(0.0 <= x.ratio <= 1.0) || ledger.GetBalance(Revenue) < x.gross { return; }
      var s := SplitOf(x.gross, x.expense, x.ratio);
      var group := |events|;
      var raised := PayOut(Treasury, s.cost, SurplusCost(group));
      if raised { return; }
      raised := PayOut(SurplusReserve, s.reserve, SurplusKept(group));
      if raised { return; }
      raised := PayOut(Treasury, s.mission, SurplusMission(group));
      if raised { return; }
      var e := RevenueEvent(x.order, x.gross, x.expense, s.net, x.consumed, s.mission, s.reserve, group);
      events := events + [e];
      result := Some(e);
    }
  }

  ghost predicate MissionEnds(o: Outcome, l: PL.Loop, events: seq<RevenueEvent>, status: WorkStatus, event: Option<RevenueEvent>) {
    o.firm.loop == l && o.firm.events == events && o.status == status && o.event == event
  }

  class SelfSustainingLoopRunner {
    const config: Config
    const loop: PL.AgentLoop
    const reconciler: SurplusReconciler

    ghost predicate Shared()
      reads this
    {
      loop.ledger == reconciler.ledger && loop.config == config.loop
    }

    constructor (config: Config, loop: PL.AgentLoop, reconciler: SurplusReconciler)
      requires loop.ledger == reconciler.ledger && loop.config == config.loop
      ensures Shared()
    {
      this.config, this.loop, this.reconciler := config, loop, reconciler;
    }

    ghost function State(): Firm
      reads this, loop, loop.ledger, reconciler
    {
      Firm(loop.State(), reconciler.events)
    }

    // The purchase step when credits are short. `go`: the mission carries on to the work.
    method ObtainCredits(j: Job) returns (go: bool, raised: bool, expense: int, refund: int)
      requires Shared() && PL.WellFormed(loop.State())
      modifies loop, loop.ledger
      ensures PL.WellFormed(loop.State())
      ensures var r := Obtain(config.loop, old(loop.State()), j);
              && loop.State() == r.loop && (go <==> r.Acquired?) && (raised <==> r.StepRaised?)
              && (!raised ==> expense == r.expense && refund == r.refund)
    {
      hide PL.Step, WholeUnits;
      go, raised, expense, refund := true, false, 0, 0;
      if j.credits < j.required {
        if !j.hasLoop { return false, false, 0, 0; }
        var whole := WholeUnits(config.loop, j.required - j.credits);
        if j.budget.Some? && whole > j.budget.value { return false, false, 0, 0; }
        var before := loop.ledger.GetBalance(Treasury);
        var count := |loop.completed|;
        raised := loop.StepOnce(j.answers);
        if raised { go := false; return; }
        var after := loop.ledger.GetBalance(Treasury);
        expense, refund := PL.Max(0, before - after), PL.Max(0, after - before);
        go := |loop.completed| > count || loop.status == PL.ObjectiveComplete || loop.acquired >= j.required;
      }
    }

    method CollectBounty(j: Job, expense: int, refund: int) returns (status: WorkStatus, event: Option<RevenueEvent>)
      requires Shared() && PL.WellFormed(loop.State())
      modifies loop.ledger, reconciler
      ensures MissionEnds(Earn(config, old(State()), j, expense, refund), loop.State(), reconciler.events, status, event)
    {
      hide Deposit, Reconcile;
      var refused := loop.ledger.DepositRevenue(j.bounty, None);
      if refused.Some? { return Verified, None; }
      event := reconciler.ReconcileSurplus(ClaimOf(j, expense, config.ratio));
      status := if event.Some? then SettledOrder else Verified;
    }

    method ExecuteMission(j: Job) returns (status: WorkStatus, event: Option<RevenueEvent>)
      requires Shared() && PL.WellFormed(loop.State())
      modifies loop, loop.ledger, reconciler
      ensures MissionEnds(Execute(config, old(State()), j), loop.State(), reconciler.events, status, event)
    {
      hide Obtain, Earn;
      var go, raised, expense, refund := ObtainCredits(j);
      if raised { return InProgress, None; }
      if !go { return Rejected, None; }
      if !j.workDone { return Rejected, None; }
      if !j.receipt.accepted || !j.verifierSigned { return Rejected, None; }
      status, event := CollectBounty(j, expense, refund);
    }
  }
}
