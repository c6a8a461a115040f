// What the purchase policy answers, told as conditions on the intent, the lists and the approval: when it
// allows, which code each refusal carries, and how long an approval on file lasts.
module PolicyResults {
  import opened Text
  import opened Ledger
  import opened PurchasePolicy

  // `known` is `given` with its capital letters made small.
  predicate SmallOf(known: string, given: string) {
    |known| == |given| &&
    forall k :: 0 <= k < |given| ==>
      known[k] == if 'A' <= given[k] <= 'Z' then given[k] + ('a' - 'A') else given[k]
  }

  predicate SameDeployment(known: Deployment, given: Deployment) {
    && known.chain == given.chain && SmallOf(known.network, given.network)
    && SmallOf(known.exchange, given.exchange) && SmallOf(known.payment, given.payment) && SmallOf(known.credit, given.credit)
  }

  ghost predicate Known(p: Config, i: Intent) {
    exists d :: d in p.deployments && SameDeployment(d, i.deployment)
  }

  // An allowlist is in force and the beneficiary is not on it in either spelling.
  ghost predicate Outsider(p: Config, i: Intent) {
    && (p.requireAllowlist || p.beneficiaries != {})
    && !Listed(p.beneficiaries, i.beneficiary)
    && !(IsBytes32(i.beneficiary) && NewlineListed(p.beneficiaries, i.beneficiary))
  }

  predicate InBounds(p: Config, i: Intent, now: int) {
    && i.usdg <= p.absolute
    && i.minCredit <= i.usdg && (i.usdg > 0 ==> i.minCredit > 0)
    && i.maxFills <= p.maxFills
    && i.maxFee <= p.maxFee && i.maxPriority <= p.maxPriority && i.gasLimit <= p.maxGas
    && (i.deadline.Some? ==> now <= i.deadline.value)
  }

  // Issued here, tagged, unrevoked, unexpired, and for this intent.
  ghost predicate Carries(c: Crypto, d: Desk, a: Approval, i: Intent, now: int) {
    && a.id in d.issued && a.id !in d.revoked
    && a.token != "" && a.token == c.mac(Payload(a))
    && now <= a.expiresAt
    && a.intentHash == Hash(c, i) && a.tenant == i.tenant && a.org == i.org
  }

  // The approval presented is the one that counts; without one, the approval on file.
  ghost predicate HumanAgrees(c: Crypto, d: Desk, i: Intent, given: Option<Approval>, now: int) {
    if given.Some? then Carries(c, d, given.value, i, now)
    else Hash(c, i) in d.approvals && Carries(c, d, d.approvals[Hash(c, i)], i, now)
  }

  lemma SmallIsLower(known: string, given: string)
    ensures SmallOf(known, given) <==> known == Lower(given)
  {}

  lemma KnownIsListed(p: Config, i: Intent)
    ensures Known(p, i) <==> Target(i) in p.deployments
  {
    forall d | d in p.deployments ensures SameDeployment(d, i.deployment) <==> d == Target(i) {
      SmallIsLower(d.network, i.deployment.network);
      SmallIsLower(d.exchange, i.deployment.exchange);
      SmallIsLower(d.payment, i.deployment.payment);
      SmallIsLower(d.credit, i.deployment.credit);
    }
    hide SameDeployment, Target;
  }

  // Exactly when a purchase is allowed, for every desk and whatever is presented.
  lemma AllowsIff(c: Crypto, p: Config, d: Desk, i: Intent, given: Option<Approval>, now: int)
    ensures Evaluate(c, p, d, i, given, now) == Allow <==>
            && Known(p, i) && !Outsider(p, i) && InBounds(p, i, now)
            && (i.usdg <= p.autonomous || HumanAgrees(c, d, i, given, now))
  {
    KnownIsListed(p, i);
    hide Known, Target, Payload, Hash, DeploymentCode, Listed, NewlineListed;
  }

  // A human is asked exactly when only the approval is missing.
  lemma AsksHumanIff(c: Crypto, p: Config, d: Desk, i: Intent, given: Option<Approval>, now: int)
    ensures Evaluate(c, p, d, i, given, now) == HumanConfirmationRequired <==>
            && Known(p, i) && !Outsider(p, i) && InBounds(p, i, now)
            && i.usdg > p.autonomous && given.None? && Hash(c, i) !in d.approvals
  {
    KnownIsListed(p, i);
    hide Known, Target, Payload, Hash, DeploymentCode, Listed, NewlineListed;
  }

  // Every other intent is denied with the code of the first check it fails.
  lemma DeniedByFirstFault(c: Crypto, p: Config, d: Desk, i: Intent, given: Option<Approval>, now: int)
    ensures var v := Evaluate(c, p, d, i, given, now);
            && (!Known(p, i) ==> v == Deny(DeploymentCode(p.deployments, Target(i))))
            && (Known(p, i) && Outsider(p, i) ==> v == Deny(Beneficiary))
            && (Known(p, i) && !Outsider(p, i) && !InBounds(p, i, now) ==>
                  if i.usdg > p.absolute then v == Deny(MaxUsdg)
                  else if i.minCredit > i.usdg || (i.minCredit <= 0 && i.usdg > 0) then v == Deny(Slippage)
                  else if i.maxFills > p.maxFills then v == Deny(MaxFills)
                  else if i.maxFee > p.maxFee || i.maxPriority > p.maxPriority || i.gasLimit > p.maxGas then v == Deny(Gas)
                  else v == Deny(Deadline))
  {
    KnownIsListed(p, i);
    hide Known, Target, Payload, Hash, DeploymentCode, Listed, NewlineListed;
  }

  // The code of an unknown deployment names the first field, or pair of fields, that no known one has.
  lemma UnknownByFirstField(p: Config, i: Intent)
    requires !Known(p, i)
    ensures var t, code := i.deployment, DeploymentCode(p.deployments, Target(i));
            var chain := exists d :: d in p.deployments && d.chain == t.chain && SmallOf(d.network, t.network);
            var exchange := exists d :: d in p.deployments && SmallOf(d.exchange, t.exchange);
            var payment := exists d :: d in p.deployments && SmallOf(d.payment, t.payment);
            var credit := exists d :: d in p.deployments && SmallOf(d.credit, t.credit);
            code == if !chain then Network else if !exchange then Exchange else if !payment then PaymentToken
                    else if !credit then CreditToken else UnknownDeployment
  {
    var t, ds := i.deployment, p.deployments;
    forall d | d in ds
      ensures SmallOf(d.network, t.network) <==> d.network == Target(i).network
      ensures SmallOf(d.exchange, t.exchange) <==> d.exchange == Target(i).exchange
      ensures SmallOf(d.payment, t.payment) <==> d.payment == Target(i).payment
      ensures SmallOf(d.credit, t.credit) <==> d.credit == Target(i).credit
    {
      SmallIsLower(d.network, t.network);
      SmallIsLower(d.exchange, t.exchange);
      SmallIsLower(d.payment, t.payment);
      SmallIsLower(d.credit, t.credit);
    }
    hide SmallOf, Lower, Known;
  }

  // An above-ceiling intent with an approval is denied with that approval's first fault.
  lemma ApprovalFault(c: Crypto, p: Config, d: Desk, i: Intent, given: Option<Approval>, now: int, a: Approval)
    requires Known(p, i) && !Outsider(p, i) && InBounds(p, i, now) && i.usdg > p.autonomous
    requires if given.Some? then a == given.value else Hash(c, i) in d.approvals && a == d.approvals[Hash(c, i)]
    requires !Carries(c, d, a, i, now)
    ensures var v := Evaluate(c, p, d, i, given, now);
            if a.id in d.revoked then v == Deny(Revoked)
            else if a.id !in d.issued || a.token == "" || a.token != c.mac(Payload(a)) then v == Deny(Unauthorized)
            else if now > a.expiresAt then v == Deny(Expired)
            else if a.intentHash != Hash(c, i) then v == Deny(IntentMismatch)
            else v == Deny(TenantMismatch)
  {
    KnownIsListed(p, i);
    hide Known, Target, Payload, Hash, DeploymentCode, Listed, NewlineListed;
  }

  // An approval just issued allows its in-bounds purchase up to and including its last second, unless its
  // id had been revoked before it existed, and it replaces whatever was on file for the intent.
  lemma IssuedAllowsUntilExpiry(c: Crypto, p: Config, w: World, i: Intent, operator: string, notes: Option<string>,
                                issued: int, ttl: int, now: int)
    requires Sound(c) && Inv(c, w) && Known(p, i) && !Outsider(p, i) && InBounds(p, i, now) && i.usdg > p.autonomous
    ensures var w' := Next(c, w, DoIssue(i, operator, notes, issued, ttl));
            Evaluate(c, p, w'.desk, i, None, now) == Allow <==> now <= issued + ttl && c.uuid(w.next) !in w.desk.revoked
  {
    var s := DoIssue(i, operator, notes, issued, ttl);
    NextKeepsInv(c, w, s);
    KnownIsListed(p, i);
    OnFileAllowsIff(c, p, Next(c, w, s), i, now);
    hide Sound, Inv, Known, Target, Payload, Hash, Listed, NewlineListed, Evaluate;
  }

  // Issuing puts the approval in both registries, with the intent's hash and parties and the given term, and
  // leaves every other entry alone.
  lemma IssueAs(c: Crypto, w: World, i: Intent, operator: string, notes: Option<string>, now: int, ttl: int)
    ensures var w' := Next(c, w, DoIssue(i, operator, notes, now, ttl)); var id, hash := c.uuid(w.next), Hash(c, i);
            && id in w'.desk.issued && hash in w'.desk.approvals && w'.desk.issued[id] == w'.desk.approvals[hash]
            && (var a := w'.desk.issued[id];
                && a.id == id && a.intentHash == hash && a.tenant == i.tenant && a.org == i.org && a.operator == operator
                && a.issuedAt == now && a.expiresAt == now + ttl && a.notes == notes && a.token == c.mac(Payload(a))
                && w'.here == w.here + {a})
            && (forall x :: x != id ==> (x in w'.desk.issued <==> x in w.desk.issued)
                                        && (x in w.desk.issued ==> w'.desk.issued[x] == w.desk.issued[x]))
            && (forall x :: x != hash ==> (x in w'.desk.approvals <==> x in w.desk.approvals)
                                          && (x in w.desk.approvals ==> w'.desk.approvals[x] == w.desk.approvals[x]))
            && w'.desk.revoked == w.desk.revoked && w'.elsewhere == w.elsewhere && w'.next == w.next + 1
  {
    var a := Signed(c, c.uuid(w.next), i, operator, notes, now, ttl);
    assert Payload(a) == Payload(a.(token := ""));
    hide Payload, Hash;
  }

  // Revoking a key, read as an intent hash, as an id, or as both: which ids are revoked by it, and what goes
  // from the two registries. A key that is neither is itself registered as revoked.
  lemma RevokeAs(d: Desk, here: set<Approval>, key: string)
    requires DeskInv(d, here)
    ensures var d', byHash, byId := Revoke(d, key), key in d.approvals, key in d.issued;
            && (forall x :: x in d'.revoked <==>
                  x in d.revoked || (if byHash && !byId then x == d.approvals[key].id
                                     else x == key || (byHash && x == d.approvals[key].id)))
            && (forall x :: x in d'.issued <==> x in d.issued && x != key && !(byHash && x == d.approvals[key].id))
            && (forall x :: x in d'.approvals <==> x in d.approvals && x != key && !(byId && x == d.issued[key].intentHash))
            && (forall x :: x in d'.issued ==> d'.issued[x] == d.issued[x])
            && (forall x :: x in d'.approvals ==> d'.approvals[x] == d.approvals[x])
  {}
}
