// The purchase policy: bounds on an intent, human approvals bound to an intent hash by a keyed
// digest, their revocation, and the beneficiary allowlist.
module PurchasePolicy {
  import opened Text
  import opened Ledger

  // ---------- intents ----------

  datatype Intent = Intent(tenant: string, org: string, operation: string, deployment: Deployment,
                           usdg: int, minCredit: int, beneficiary: string, maxFills: int, maxFee: int,
                           maxPriority: int, gasLimit: int, amount: int, bindings: string, deadline: Option<int>)

  datatype Deployment = Deployment(chain: int, network: string, exchange: string, payment: string, credit: string)

  function LowerChar(c: char): char {
    if 'A' <= c <= 'Z' then c - 'A' + 'a' else c
  }

  function Lower(s: string): string {
    seq(|s|, i requires 0 <= i < |s| => LowerChar(s[i]))
  }

  predicate IsHex(c: char) { '0' <= c <= '9' || 'a' <= c <= 'f' }

  // "0x" and n lower-case hex digits.
  predicate HexText(s: string, n: nat) {
    |s| == n + 2 && s[0] == '0' && s[1] == 'x' && forall i :: 2 <= i < |s| ==> IsHex(s[i])
  }

  predicate IsAddress(s: string) { HexText(s, 40) }

  predicate IsBytes32(s: string) { HexText(s, 64) }

  // The validators accept and normalise exactly these two forms.
  predicate Normalised(i: Intent) { IsAddress(i.beneficiary) || IsBytes32(i.beneficiary) }

  function Zeros(n: nat): (r: string)
    ensures |r| == n && forall i :: 0 <= i < n ==> r[i] == '0'
  {
    seq(n, _ => '0')
  }

  function Padded(address: string): string
    requires |address| >= 2
  {
    "0x" + Zeros(if |address| < 66 then 66 - |address| else 0) + address[2..]
  }

  function AsBytes32(beneficiary: string): string {
    if IsAddress(beneficiary) then Padded(beneficiary) else beneficiary
  }

  // What the intent hash covers: the beneficiary enters in its bytes32 form.
  function Canonical(i: Intent): Intent { i.(beneficiary := AsBytes32(i.beneficiary)) }

  // ---------- the beneficiary allowlist ----------

  // `$` in the address pattern also matches before one final newline, which the conversion strips.
  predicate MatchesAddress(s: string) {
    IsAddress(s) || (|s| == 43 && s[42] == '\n' && IsAddress(s[..42]))
  }

  function Converted(s: string): string
    requires MatchesAddress(s)
  {
    Padded(s[..42])
  }

  ghost predicate Listed(allowed: set<string>, key: string) {
    exists entry :: entry in allowed && AsBytes32(entry) == AsBytes32(key)
  }

  // An allowlist entry that is an address followed by a newline.
  ghost predicate NewlineListed(allowed: set<string>, key: string) {
    exists entry :: entry in allowed && |entry| == 43 && MatchesAddress(entry) && Converted(entry) == key
  }

  lemma PaddedIsBytes32(a: string)
    requires IsAddress(a)
    ensures IsBytes32(Padded(a)) && Padded(a)[26..] == a[2..]
  {}

  lemma PaddedInjective(a: string, b: string)
    requires IsAddress(a) && IsAddress(b) && Padded(a) == Padded(b)
    ensures a == b
  {
    PaddedIsBytes32(a);
    PaddedIsBytes32(b);
    assert a == "0x" + a[2..] && b == "0x" + b[2..];
  }

  // The three-way check over the list equals membership of the padded form, except that a bytes32
  // key is also accepted through an entry with a trailing newline while the plain address is not.
  method BeneficiaryAllowed(allowed: set<string>, key: string) returns (ok: bool)
    requires IsAddress(key) || IsBytes32(key)
    ensures ok <==> Listed(allowed, key) || (IsBytes32(key) && NewlineListed(allowed, key))
  {
    ok := false;
    if key in allowed {
      return true;
    } else if MatchesAddress(key) {
      PaddedIsBytes32(key);
      ok := Padded(key) in allowed;
      forall entry | entry in allowed && AsBytes32(entry) == AsBytes32(key) ensures entry == Padded(key) {
        if IsAddress(entry) { PaddedInjective(entry, key); }
      }
    } else {
      var rest := allowed;
      while rest != {}
        invariant rest <= allowed
        invariant forall e :: e in allowed - rest ==>
          AsBytes32(e) != key && !(|e| == 43 && MatchesAddress(e) && Converted(e) == key)
        decreases rest
      {
        var entry :| entry in rest;
        if MatchesAddress(entry) {
          assert |entry| == 42 ==> entry[..42] == entry;
          if Converted(entry) == key {
            return true;
          }
        } else if entry == key {
          return true;
        }
        rest := rest - {entry};
      }
    }
  }

  // So the check is membership of the padded form, for every beneficiary, exactly when each
  // newline-terminated address on the list is also listed without the newline in some form.
  lemma CheckIsMembershipIff(allowed: set<string>)
    ensures (forall key :: IsBytes32(key) && NewlineListed(allowed, key) ==> Listed(allowed, key)) <==>
            (forall entry :: entry in allowed && |entry| == 43 && MatchesAddress(entry) ==> Listed(allowed, entry[..42]))
  {
    if forall key :: IsBytes32(key) && NewlineListed(allowed, key) ==> Listed(allowed, key) {
      forall entry | entry in allowed && |entry| == 43 && MatchesAddress(entry) ensures Listed(allowed, entry[..42]) {
        PaddedIsBytes32(entry[..42]);
        assert NewlineListed(allowed, Converted(entry));
      }
    }
    forall key | IsBytes32(key) && NewlineListed(allowed, key) &&
                 forall entry :: entry in allowed && |entry| == 43 && MatchesAddress(entry) ==> Listed(allowed, entry[..42])
      ensures Listed(allowed, key)
    {
      var entry :| entry in allowed && |entry| == 43 && MatchesAddress(entry) && Converted(entry) == key;
      assert Listed(allowed, entry[..42]);
    }
  }

  lemma NewlineEntrySplitsSpellings()
    ensures var address := "0x" + Zeros(40); var allowed := {address + "\n"};
            && IsAddress(address) && IsBytes32(Padded(address))
            && !Listed(allowed, address) && !Listed(allowed, Padded(address)) && NewlineListed(allowed, Padded(address))
  {
    var address := "0x" + Zeros(40);
    PaddedIsBytes32(address);
    var entry := address + "\n";
    assert entry[..42] == address;
    assert entry in {entry} && |entry| == 43 && MatchesAddress(entry) && Converted(entry) == Padded(address);
    assert AsBytes32(entry) == entry && |AsBytes32(address)| == 66;
  }

  // ---------- approvals ----------

  datatype Approval = Approval(id: string, intentHash: string, tenant: string, org: string, operator: string,
                               issuedAt: int, expiresAt: int, notes: Option<string>, token: string)

  // Digest of an intent, the uuid source and the keyed digest.
  datatype Crypto = Crypto(digest: Intent -> string, uuid: nat -> string, mac: string -> string)

  ghost predicate Sound(c: Crypto) {
    && (forall x, y :: c.digest(x) == c.digest(y) ==> x == y)
    && (forall x :: Free(c.digest(x), ':'))
    && (forall m, n :: c.uuid(m) == c.uuid(n) ==> m == n)
    && (forall n :: Free(c.uuid(n), ':'))
    && (forall p :: c.mac(p) != "")
  }

  function Hash(c: Crypto, i: Intent): string { c.digest(Canonical(i)) }

  function Middle(a: Approval): string { a.tenant + ":" + a.org + ":" + a.operator }

  // id:hash:tenant:organisation:operator:issued:expires
  function Payload(a: Approval): string {
    a.id + [':'] + (a.intentHash + [':'] + ((Middle(a) + [':'] + Numeral(a.issuedAt)) + [':'] + Numeral(a.expiresAt)))
  }

  lemma PayloadDetermines(a: Approval, b: Approval)
    requires Payload(a) == Payload(b)
    requires Free(a.id, ':') && Free(b.id, ':') && Free(a.intentHash, ':') && Free(b.intentHash, ':')
    ensures a.id == b.id && a.intentHash == b.intentHash && Middle(a) == Middle(b)
    ensures a.issuedAt == b.issuedAt && a.expiresAt == b.expiresAt
  {
    var a2 := (Middle(a) + [':'] + Numeral(a.issuedAt)) + [':'] + Numeral(a.expiresAt);
    var b2 := (Middle(b) + [':'] + Numeral(b.issuedAt)) + [':'] + Numeral(b.expiresAt);
    SplitFirst(':', a.id, a.intentHash + [':'] + a2, b.id, b.intentHash + [':'] + b2);
    SplitFirst(':', a.intentHash, a2, b.intentHash, b2);
    NumeralFree(a.issuedAt, ':');
    NumeralFree(b.issuedAt, ':');
    NumeralFree(a.expiresAt, ':');
    NumeralFree(b.expiresAt, ':');
    SplitLast(':', Middle(a) + [':'] + Numeral(a.issuedAt), Numeral(a.expiresAt),
              Middle(b) + [':'] + Numeral(b.issuedAt), Numeral(b.expiresAt));
    SplitLast(':', Middle(a), Numeral(a.issuedAt), Middle(b), Numeral(b.issuedAt));
    NumeralInjective(a.issuedAt, b.issuedAt);
    NumeralInjective(a.expiresAt, b.expiresAt);
  }

  lemma MiddleDetermines(a: Approval, b: Approval)
    requires Middle(a) == Middle(b) && a.tenant == b.tenant && a.org == b.org
    ensures a.operator == b.operator
  {
    var k := |a.tenant| + 1 + |a.org| + 1;
    assert Middle(a)[k..] == a.operator && Middle(b)[k..] == b.operator;
  }

  // What the policy object remembers.
  datatype Desk = Desk(approvals: map<string, Approval>, issued: map<string, Approval>, revoked: set<string>)

  function Signed(c: Crypto, id: string, i: Intent, operator: string, notes: Option<string>, now: int, ttl: int): Approval {
    var a := Approval(id, Hash(c, i), i.tenant, i.org, operator, now, now + ttl, notes, "");
    a.(token := c.mac(Payload(a)))
  }

  function Issue(d: Desk, a: Approval): Desk {
    d.(approvals := d.approvals[a.intentHash := a], issued := d.issued[a.id := a])
  }

  function RevokeHash(d: Desk, key: string): Desk {
    if key in d.approvals then
      var a := d.approvals[key];
      Desk(d.approvals - {key}, d.issued - {a.id}, d.revoked + {a.id})
    else d
  }

  function RevokeId(d: Desk, key: string): Desk {
    if key in d.issued then
      var a := d.issued[key];
      Desk(d.approvals - {a.intentHash}, d.issued - {key}, d.revoked + {a.id})
    else d
  }

  function Revoke(d: Desk, key: string): Desk {
    var d' := RevokeId(RevokeHash(d, key), key);
    if key in d.approvals || key in d.issued then d' else d.(revoked := d.revoked + {key})
  }

  // ---------- evaluation ----------

  datatype Config = Config(deployments: set<Deployment>, beneficiaries: set<string>, requireAllowlist: bool,
                           autonomous: int, absolute: int, maxFills: int, maxFee: int, maxPriority: int, maxGas: int)

  datatype Code =
    | Network | Exchange | PaymentToken | CreditToken | UnknownDeployment | Beneficiary | MaxUsdg | Slippage
    | MaxFills | Gas | Deadline | Revoked | Unauthorized | Expired | IntentMismatch | TenantMismatch

  datatype Verdict = Allow | Deny(code: Code) | HumanConfirmationRequired

  function Target(i: Intent): Deployment {
    Deployment(i.deployment.chain, Lower(i.deployment.network), Lower(i.deployment.exchange),
               Lower(i.deployment.payment), Lower(i.deployment.credit))
  }

  function DeploymentCode(known: set<Deployment>, t: Deployment): Code {
    if t.chain !in (set d | d in known :: d.chain) then Network
    else if t.network !in (set d | d in known :: d.network) then Network
    else if (t.chain, t.network) !in (set d | d in known :: (d.chain, d.network)) then Network
    else if t.exchange !in (set d | d in known :: d.exchange) then Exchange
    else if t.payment !in (set d | d in known :: d.payment) then PaymentToken
    else if t.credit !in (set d | d in known :: d.credit) then CreditToken
    else UnknownDeployment
  }

  ghost predicate BeneficiaryPasses(p: Config, key: string) {
    || (!p.requireAllowlist && p.beneficiaries == {})
    || Listed(p.beneficiaries, key) || (IsBytes32(key) && NewlineListed(p.beneficiaries, key))
  }

  // The numeric bounds, in the order they are tried.
  function BoundCode(p: Config, i: Intent, now: int): Option<Code> {
    if i.usdg > p.absolute then Some(MaxUsdg)
    else if i.minCredit > i.usdg then Some(Slippage)
    else if i.minCredit <= 0 && i.usdg > 0 then Some(Slippage)
    else if i.maxFills > p.maxFills then Some(MaxFills)
    else if i.maxFee > p.maxFee then Some(Gas)
    else if i.maxPriority > p.maxPriority then Some(Gas)
    else if i.gasLimit > p.maxGas then Some(Gas)
    else if i.deadline.Some? && now > i.deadline.value then Some(Deadline)
    else None
  }

  function Basis(c: Crypto, d: Desk, i: Intent, given: Option<Approval>): Option<Approval> {
    if given.Some? then given
    else if Hash(c, i) in d.approvals then Some(d.approvals[Hash(c, i)])
    else None
  }

  function ApprovalVerdict(c: Crypto, d: Desk, i: Intent, a: Approval, now: int): Verdict {
    if a.id in d.revoked then Deny(Revoked)
    else if a.token == "" then Deny(Unauthorized)
    else if a.token != c.mac(Payload(a)) then Deny(Unauthorized)
    else if a.id !in d.issued then Deny(Unauthorized)
    else if now > a.expiresAt then Deny(Expired)
    else if a.intentHash != Hash(c, i) then Deny(IntentMismatch)
    else if a.tenant != i.tenant || a.org != i.org then Deny(TenantMismatch)
    else Allow
  }

  ghost function Evaluate(c: Crypto, p: Config, d: Desk, i: Intent, given: Option<Approval>, now: int): Verdict {
    if Target(i) !in p.deployments then Deny(DeploymentCode(p.deployments, Target(i)))
    else if !BeneficiaryPasses(p, i.beneficiary) then Deny(Beneficiary)
    else if BoundCode(p, i, now).Some? then Deny(BoundCode(p, i, now).value)
    else if i.usdg <= p.autonomous then Allow
    else
      match Basis(c, d, i, given)
      case None => HumanConfirmationRequired
      case Some(a) => ApprovalVerdict(c, d, i, a, now)
  }

  // ---------- runs ----------

  // `here` is everything this policy ever signed, `elsewhere` what other holders of the same
  // signing secret signed.
  datatype World = World(desk: Desk, here: set<Approval>, elsewhere: set<Approval>, next: nat)

  datatype Step =
    | DoIssue(intent: Intent, operator: string, notes: Option<string>, now: int, ttl: int)
    | DoRevoke(key: string)
    | DoIssueElsewhere(intent: Intent, operator: string, notes: Option<string>, now: int, ttl: int)

  function Init(): World { World(Desk(map[], map[], {}), {}, {}, 0) }

  function Next(c: Crypto, w: World, s: Step): World {
    match s
    case DoIssue(i, op, notes, now, ttl) =>
      var a := Signed(c, c.uuid(w.next), i, op, notes, now, ttl);
      w.(desk := Issue(w.desk, a), here := w.here + {a}, next := w.next + 1)
    case DoRevoke(key) => w.(desk := Revoke(w.desk, key))
    case DoIssueElsewhere(i, op, notes, now, ttl) =>
      w.(elsewhere := w.elsewhere + {Signed(c, c.uuid(w.next), i, op, notes, now, ttl)}, next := w.next + 1)
  }

  function Run(c: Crypto, w: World, steps: seq<Step>): World
    decreases |steps|
  {
    if steps == [] then w else Run(c, Next(c, w, steps[0]), steps[1..])
  }

  // Signed under the key, for some intent, under one of the first n uuids.
  ghost predicate Genuine(c: Crypto, a: Approval, n: nat) {
    && a.token == c.mac(Payload(a))
    && (exists k: nat :: k < n && a.id == c.uuid(k))
    && (exists i :: a.intentHash == Hash(c, i) && a.tenant == i.tenant && a.org == i.org)
  }

  ghost predicate Registered(c: Crypto, signed: set<Approval>, n: nat) {
    && (forall a :: a in signed ==> Genuine(c, a, n))
    && (forall a, b :: a in signed && b in signed && a.id == b.id ==> a == b)
  }

  ghost predicate DeskInv(d: Desk, here: set<Approval>) {
    && (forall h :: h in d.approvals ==>
          d.approvals[h].intentHash == h && d.approvals[h].id in d.issued && d.issued[d.approvals[h].id] == d.approvals[h])
    && (forall id :: id in d.issued ==> d.issued[id] in here && d.issued[id].id == id)
    && (forall a :: a in here ==> a.id in d.issued || a.id in d.revoked)
  }

  ghost predicate Inv(c: Crypto, w: World) {
    Registered(c, w.here + w.elsewhere, w.next) && DeskInv(w.desk, w.here)
  }

  lemma SignedIsGenuine(c: Crypto, k: nat, i: Intent, op: string, notes: Option<string>, now: int, ttl: int)
    ensures Genuine(c, Signed(c, c.uuid(k), i, op, notes, now, ttl), k + 1)
  {
    var a := Signed(c, c.uuid(k), i, op, notes, now, ttl);
    assert a.id == c.uuid(k);
    assert a.intentHash == Hash(c, i) && a.tenant == i.tenant && a.org == i.org;
    assert Payload(a) == Payload(a.(token := ""));
  }

  lemma NewIdIsNew(c: Crypto, w: World, a: Approval)
    requires Sound(c) && Inv(c, w) && a in w.here + w.elsewhere
    ensures a.id != c.uuid(w.next) && Genuine(c, a, w.next + 1)
  {
    hide Payload, DeskInv;
    assert Genuine(c, a, w.next);
  }

  lemma RegisterKeeps(c: Crypto, w: World, a: Approval, signed: set<Approval>)
    requires Sound(c) && Inv(c, w) && Genuine(c, a, w.next + 1) && a.id == c.uuid(w.next)
    requires signed == w.here + w.elsewhere + {a}
    ensures Registered(c, signed, w.next + 1)
    ensures forall b :: b in w.here ==> b.id != a.id
  {
    hide Genuine, Sound, DeskInv, Payload;
    forall b | b in w.here + w.elsewhere ensures b.id != a.id && Genuine(c, b, w.next + 1) {
      NewIdIsNew(c, w, b);
    }
  }

  lemma IssueKeepsDesk(d: Desk, here: set<Approval>, a: Approval)
    requires DeskInv(d, here) && forall b :: b in here ==> b.id != a.id
    ensures DeskInv(Issue(d, a), here + {a})
  {}

  lemma RevokeHashKeepsDesk(d: Desk, here: set<Approval>, key: string)
    requires DeskInv(d, here)
    ensures DeskInv(RevokeHash(d, key), here)
  {}

  lemma RevokeIdKeepsDesk(d: Desk, here: set<Approval>, key: string)
    requires DeskInv(d, here)
    ensures DeskInv(RevokeId(d, key), here)
  {}

  lemma NextKeepsInv(c: Crypto, w: World, s: Step)
    requires Sound(c) && Inv(c, w)
    ensures Inv(c, Next(c, w, s))
  {
    hide Genuine, Sound, DeskInv;
    var w' := Next(c, w, s);
    match s
    case DoIssue(i, op, notes, now, ttl) =>
      var a := Signed(c, c.uuid(w.next), i, op, notes, now, ttl);
      SignedIsGenuine(c, w.next, i, op, notes, now, ttl);
      RegisterKeeps(c, w, a, w'.here + w'.elsewhere);
      IssueKeepsDesk(w.desk, w.here, a);
    case DoIssueElsewhere(i, op, notes, now, ttl) =>
      SignedIsGenuine(c, w.next, i, op, notes, now, ttl);
      RegisterKeeps(c, w, Signed(c, c.uuid(w.next), i, op, notes, now, ttl), w'.here + w'.elsewhere);
    case DoRevoke(key) =>
      RevokeHashKeepsDesk(w.desk, w.here, key);
      RevokeIdKeepsDesk(RevokeHash(w.desk, key), w.here, key);
      RevokeStrangerKeepsDesk(w.desk, w.here, key);
  }

  lemma RevokeStrangerKeepsDesk(d: Desk, here: set<Approval>, key: string)
    requires DeskInv(d, here)
    ensures DeskInv(d.(revoked := d.revoked + {key}), here)
  {}

  lemma NextGrows(c: Crypto, w: World, s: Step)
    ensures w.desk.revoked <= Next(c, w, s).desk.revoked && w.here <= Next(c, w, s).here
  {}

  lemma {:induction false} RunKeepsInv(c: Crypto, w: World, steps: seq<Step>)
    requires Sound(c) && Inv(c, w)
    ensures Inv(c, Run(c, w, steps))
    ensures w.desk.revoked <= Run(c, w, steps).desk.revoked && w.here <= Run(c, w, steps).here
    decreases |steps|
  {
    hide Inv, Sound, Next;
    if steps != [] {
      NextKeepsInv(c, w, steps[0]);
      NextGrows(c, w, steps[0]);
      RunKeepsInv(c, Next(c, w, steps[0]), steps[1..]);
    }
  }

  // Without the key nobody makes a valid tag for a payload that was never signed.
  ghost predicate Unforged(c: Crypto, w: World, given: Option<Approval>) {
    given.Some? && given.value.token == c.mac(Payload(given.value)) ==>
      exists a :: a in w.here + w.elsewhere && Payload(a) == Payload(given.value)
  }

  // The approval an accepted above-ceiling purchase rests on is one this policy issued, for this
  // intent hash, equal in every signed field to what was presented.
  ghost predicate RestsOn(c: Crypto, w: World, i: Intent, used: Approval, a: Approval, now: int) {
    && a in w.here && used.(notes := a.notes) == a
    && a.intentHash == Hash(c, i) && a.tenant == i.tenant && a.org == i.org
    && now <= a.expiresAt && a.id !in w.desk.revoked && a.id in w.desk.issued
  }

  lemma GenuineFields(c: Crypto, a: Approval, n: nat, i: Intent)
    requires Sound(c) && Genuine(c, a, n)
    ensures Free(a.id, ':') && Free(a.intentHash, ':') && a.token == c.mac(Payload(a)) != ""
    ensures a.intentHash == Hash(c, i) ==> a.tenant == i.tenant && a.org == i.org
  {
    hide Payload;
    var origin :| a.intentHash == Hash(c, origin) && a.tenant == origin.tenant && a.org == origin.org;
    if a.intentHash == Hash(c, i) { assert Canonical(origin) == Canonical(i); }
  }

  lemma DigestFree(c: Crypto, i: Intent)
    requires Sound(c)
    ensures Free(Hash(c, i), ':')
  {}

  lemma PresentedIsIssued(c: Crypto, w: World, i: Intent, used: Approval, a: Approval, now: int)
    requires Sound(c) && Inv(c, w) && a in w.here + w.elsewhere && Payload(a) == Payload(used)
    requires ApprovalVerdict(c, w.desk, i, used, now) == Allow
    ensures RestsOn(c, w, i, used, a, now)
  {
    hide Sound, Genuine, Payload, Middle;
    var own := w.desk.issued[used.id];
    GenuineFields(c, own, w.next, i);
    GenuineFields(c, a, w.next, i);
    DigestFree(c, i);
    PayloadDetermines(a, used);
    assert a == own;
    MiddleDetermines(a, used);
  }

  lemma AllowRestsOnApproval(c: Crypto, p: Config, w: World, i: Intent, given: Option<Approval>, now: int)
    requires Sound(c) && Inv(c, w) && Unforged(c, w, given)
    requires i.usdg > p.autonomous && Evaluate(c, p, w.desk, i, given, now) == Allow
    ensures exists a :: RestsOn(c, w, i, Basis(c, w.desk, i, given).value, a, now)
  {
    hide Sound, Genuine, Payload;
    var used := Basis(c, w.desk, i, given).value;
    if given.None? { assert Payload(used) == Payload(used) && used in w.here + w.elsewhere; }
    var a :| a in w.here + w.elsewhere && Payload(a) == Payload(used);
    PresentedIsIssued(c, w, i, used, a, now);
  }

  // Over every sequence of issue and revoke calls.
  lemma EveryAllowRestsOnApproval(c: Crypto, p: Config, steps: seq<Step>, i: Intent, given: Option<Approval>, now: int)
    requires Sound(c)
    ensures var w := Run(c, Init(), steps);
            Unforged(c, w, given) && i.usdg > p.autonomous && Evaluate(c, p, w.desk, i, given, now) == Allow ==>
              exists a :: RestsOn(c, w, i, Basis(c, w.desk, i, given).value, a, now)
  {
    RunKeepsInv(c, Init(), steps);
    var w := Run(c, Init(), steps);
    if Unforged(c, w, given) && i.usdg > p.autonomous && Evaluate(c, p, w.desk, i, given, now) == Allow {
      AllowRestsOnApproval(c, p, w, i, given, now);
    }
  }

  // Revoking an id this policy issued always registers it, whatever happened to it before.
  lemma RevokeRegisters(d: Desk, here: set<Approval>, a: Approval)
    requires DeskInv(d, here) && a in here
    ensures a.id in Revoke(d, a.id).revoked
  {}

  // Once revoked, an id never carries an above-ceiling purchase again, whatever is issued or
  // revoked later and whatever is presented.
  lemma RevokedNeverAllows(c: Crypto, p: Config, w: World, steps: seq<Step>, id: string, i: Intent,
                           given: Option<Approval>, now: int)
    requires Sound(c) && Inv(c, w) && id in w.desk.revoked && i.usdg > p.autonomous
    ensures var d := Run(c, w, steps).desk;
            Evaluate(c, p, d, i, given, now) == Allow ==> Basis(c, d, i, given).value.id != id
  {
    RunKeepsInv(c, w, steps);
  }

  // Revoking by intent hash revokes the latest approval only: an earlier one for the same hash is
  // revoked by the call exactly when it is the one on file (or its id is the key).
  lemma RevokeByHashIff(c: Crypto, w: World, h: string, a: Approval)
    requires Inv(c, w) && a in w.here && a.id !in w.desk.revoked && a.intentHash == h
    ensures a.id in Revoke(w.desk, h).revoked <==> a.id == h || (h in w.desk.approvals && w.desk.approvals[h] == a)
  {}

  // With nothing presented, an in-bounds above-ceiling intent is allowed exactly when the
  // approval on file for its hash is unexpired and its id was never revoked.
  lemma OnFileAllowsIff(c: Crypto, p: Config, w: World, i: Intent, now: int)
    requires Sound(c) && Inv(c, w)
    requires Target(i) in p.deployments && BeneficiaryPasses(p, i.beneficiary) && BoundCode(p, i, now).None?
    requires i.usdg > p.autonomous
    ensures Evaluate(c, p, w.desk, i, None, now) == Allow <==>
              Hash(c, i) in w.desk.approvals && var a := w.desk.approvals[Hash(c, i)];
              a.id !in w.desk.revoked && now <= a.expiresAt
  {
    hide Sound, Genuine, Payload;
    if Hash(c, i) in w.desk.approvals {
      var a := w.desk.approvals[Hash(c, i)];
      GenuineFields(c, a, w.next, i);
    }
  }

  lemma RunThree(c: Crypto, s1: Step, s2: Step, s3: Step)
    ensures Run(c, Init(), [s1, s2, s3]) == Next(c, Next(c, Next(c, Init(), s1), s2), s3)
  {
    assert [s1, s2, s3][1..] == [s2, s3];
    assert [s2, s3][1..] == [s3];
    assert [s3][1..] == [];
    assert forall w :: Run(c, w, [s3]) == Next(c, w, s3);
  }

  // Two approvals for one intent, then a revocation by its hash: the first still allows the
  // purchase when it is presented, the second does not.
  lemma EarlierApprovalSurvives(c: Crypto, p: Config, i: Intent, now: int, ttl: nat)
    requires Sound(c) && c.uuid(0) != Hash(c, i)
    requires Target(i) in p.deployments && BeneficiaryPasses(p, i.beneficiary) && BoundCode(p, i, now).None?
    requires i.usdg > p.autonomous
    ensures var issue := DoIssue(i, "OPERATOR", None, now, ttl);
            var w := Run(c, Init(), [issue, issue, DoRevoke(Hash(c, i))]);
            var first := Signed(c, c.uuid(0), i, "OPERATOR", None, now, ttl);
            var second := Signed(c, c.uuid(1), i, "OPERATOR", None, now, ttl);
            && Evaluate(c, p, w.desk, i, Some(first), now) == Allow
            && Evaluate(c, p, w.desk, i, Some(second), now) == Deny(Revoked)
            && Evaluate(c, p, w.desk, i, None, now) == HumanConfirmationRequired
  {
    var issue := DoIssue(i, "OPERATOR", None, now, ttl);
    var first := Signed(c, c.uuid(0), i, "OPERATOR", None, now, ttl);
    SignedIsGenuine(c, 0, i, "OPERATOR", None, now, ttl);
    RunThree(c, issue, issue, DoRevoke(Hash(c, i)));
  }

  // ---------- the object ----------

  class OrbioPurchasePolicy {
    const config: Config
    var approvals: map<string, Approval>
    var issuedApprovals: map<string, Approval>
    var revokedIds: set<string>

    ghost function State(): Desk
      reads this
    {
      Desk(approvals, issuedApprovals, revokedIds)
    }

    constructor (config: Config)
      requires config.autonomous <= config.absolute
      ensures this.config == config && State() == Init().desk
    {
      this.config := config;
      approvals, issuedApprovals, revokedIds := map[], map[], {};
    }

    method IssueHumanApproval(c: Crypto, id: string, i: Intent, operator: string, notes: Option<string>, now: int, ttl: int)
      returns (a: Approval)
      modifies this
      ensures a == Signed(c, id, i, operator, notes, now, ttl)
      ensures State() == Issue(old(State()), a)
    {
      a := Signed(c, id, i, operator, notes, now, ttl);
      approvals := approvals[a.intentHash := a];
      issuedApprovals := issuedApprovals[a.id := a];
    }

    method RevokeHumanApproval(key: string) returns (revoked: bool)
      modifies this
      ensures revoked && State() == Revoke(old(State()), key)
    {
      revoked := false;
      if key in approvals {
        var a := approvals[key];
        approvals := approvals - {key};
        revokedIds := revokedIds + {a.id};
        issuedApprovals := issuedApprovals - {a.id};
        revoked := true;
      }
      if key in issuedApprovals {
        var a := issuedApprovals[key];
        issuedApprovals := issuedApprovals - {key};
        revokedIds := revokedIds + {a.id};
        approvals := approvals - {a.intentHash};
        revoked := true;
      }
      if !revoked {
        revokedIds := revokedIds + {key};
        revoked := true;
      }
    }

    method EvaluateIntent(c: Crypto, i: Intent, given: Option<Approval>, now: int) returns (v: Verdict)
      requires Normalised(i)
      ensures v == Evaluate(c, config, State(), i, given, now)
    {
      if Target(i) !in config.deployments { return Deny(DeploymentCode(config.deployments, Target(i))); }
      if config.requireAllowlist || config.beneficiaries != {} {
        var allowed := BeneficiaryAllowed(config.beneficiaries, i.beneficiary);
        if !allowed { return Deny(Beneficiary); }
      }
      var bound := BoundCode(config, i, now);
      if bound.Some? { return Deny(bound.value); }
      if i.usdg > config.autonomous {
        var basis := given;
        if basis.None? && Hash(c, i) in approvals { basis := Some(approvals[Hash(c, i)]); }
        if basis.None? { return HumanConfirmationRequired; }
        var a := basis.value;
        if a.id in revokedIds { return Deny(Revoked); }
        if a.token == "" || a.token != c.mac(Payload(a)) || a.id !in issuedApprovals { return Deny(Unauthorized); }
        if now > a.expiresAt { return Deny(Expired); }
        if a.intentHash != Hash(c, i) { return Deny(IntentMismatch); }
        if a.tenant != i.tenant || a.org != i.org { return Deny(TenantMismatch); }
      }
      return Allow;
    }
  }
}
