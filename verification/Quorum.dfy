// Two-person resumption of a paused organisation: signed approvals, their consumption, and the
// circuit breaker's state row and audit trail.
module Quorum {
  import opened Text
  import opened Ledger
  import R = Reputation

  datatype Approval = Approval(id: string, tenant: string, action: string, target: string, payloadHash: string,
                               approver: string, expiresAt: real, signature: string)

  // The keyed digest, the payload hash and the source of approval ids.
  datatype Crypto = Crypto(mac: string -> string, hash: string -> string, uuid: nat -> string)

  ghost predicate Sound(c: Crypto) {
    && (forall p :: Free(c.hash(p), ':'))
    && (forall n :: Free(c.uuid(n), ':'))
    && (forall m, n :: c.uuid(m) == c.uuid(n) ==> m == n)
  }

  // Expiry is signed as text with four decimals; the text is modelled by the number of ticks.
  function Ticks(x: real): int { R.RoundInt(x * 10000.0) }

  function Head(a: Approval): string {
    a.id + [':'] + (a.tenant + [':'] + (a.action + [':'] + (a.target + [':'] + (a.payloadHash + [':'] + a.approver))))
  }

  // id:tenant:action:target:payload hash:approver:expiry
  function Canonical(a: Approval): string { Head(a) + [':'] + Numeral(Ticks(a.expiresAt)) }

  function PayloadOf(org: string): string { "{\"organisation_id\": \"" + org + "\"}" }

  const Resumption := "CIRCUIT_BREAKER_RESUME"

  function Issued(c: Crypto, id: string, tenant: string, action: string, target: string, payload: string,
                  approver: string, expiresAt: real): Approval {
    var a := Approval(id, tenant, action, target, c.hash(payload), approver, expiresAt, "");
    a.(signature := c.mac(Canonical(a)))
  }

  // ---------- what a signature pins down ----------

  // No field contains the separator.
  ghost predicate Plain(a: Approval) {
    Free(a.id, ':') && Free(a.tenant, ':') && Free(a.action, ':') && Free(a.target, ':') && Free(a.payloadHash, ':') && Free(a.approver, ':')
  }

  lemma HeadCount(a: Approval)
    ensures Count(Head(a), ':') == Count(a.id, ':') + Count(a.tenant, ':') + Count(a.action, ':') + Count(a.target, ':')
                                   + Count(a.payloadHash, ':') + Count(a.approver, ':') + 5
  {
    var s4 := a.payloadHash + [':'] + a.approver;
    var s3 := a.target + [':'] + s4;
    var s2 := a.action + [':'] + s3;
    var s1 := a.tenant + [':'] + s2;
    CountJoin(a.payloadHash, a.approver, ':');
    CountJoin(a.target, s4, ':');
    CountJoin(a.action, s3, ':');
    CountJoin(a.tenant, s2, ':');
    CountJoin(a.id, s1, ':');
  }

  // A presented approval whose signed text equals that of a plain one is plain itself.
  lemma PlainIsPreserved(a: Approval, b: Approval)
    requires Head(a) == Head(b) && Plain(a)
    ensures Plain(b)
  {
    HeadCount(a);
    HeadCount(b);
    forall s ensures Free(s, ':') <==> Count(s, ':') == 0 { FreeIffCountZero(s, ':'); }
  }

  ghost predicate SameFields(a: Approval, b: Approval) {
    && a.id == b.id && a.tenant == b.tenant && a.action == b.action && a.target == b.target
    && a.payloadHash == b.payloadHash && a.approver == b.approver
  }

  // The signed text of a plain approval determines every field, the expiry up to a tick.
  lemma CanonicalDetermines(a: Approval, b: Approval)
    requires Canonical(a) == Canonical(b) && Plain(a)
    ensures SameFields(a, b)
    ensures a.expiresAt - 0.0001 <= b.expiresAt <= a.expiresAt + 0.0001
  {
    NumeralFree(Ticks(a.expiresAt), ':');
    NumeralFree(Ticks(b.expiresAt), ':');
    SplitLast(':', Head(a), Numeral(Ticks(a.expiresAt)), Head(b), Numeral(Ticks(b.expiresAt)));
    NumeralInjective(Ticks(a.expiresAt), Ticks(b.expiresAt));
    TicksClose(a.expiresAt, b.expiresAt);
    PlainIsPreserved(a, b);
    HeadDetermines(a, b);
  }

  lemma HeadDetermines(a: Approval, b: Approval)
    requires Head(a) == Head(b) && Plain(a) && Plain(b)
    ensures SameFields(a, b)
  {
    var a4, b4 := a.payloadHash + [':'] + a.approver, b.payloadHash + [':'] + b.approver;
    var a3, b3 := a.target + [':'] + a4, b.target + [':'] + b4;
    var a2, b2 := a.action + [':'] + a3, b.action + [':'] + b3;
    var a1, b1 := a.tenant + [':'] + a2, b.tenant + [':'] + b2;
    SplitFirst(':', a.id, a1, b.id, b1);
    SplitFirst(':', a.tenant, a2, b.tenant, b2);
    SplitFirst(':', a.action, a3, b.action, b3);
    SplitFirst(':', a.target, a4, b.target, b4);
    SplitFirst(':', a.payloadHash, a.approver, b.payloadHash, b.approver);
  }

  lemma TicksClose(x: real, y: real)
    requires Ticks(x) == Ticks(y)
    ensures x - 0.0001 <= y <= x + 0.0001
  {
    var k := Ticks(x) as real;
    assert k - 0.5 <= x * 10000.0 <= k + 0.5 && k - 0.5 <= y * 10000.0 <= k + 0.5;
  }

  // Two neighbouring fields can be cut in another place when one of them holds the separator.
  lemma Recut(x: string, u: string, v: string, y: string)
    ensures (u + [':'] + v) + [':'] + y == u + [':'] + (v + [':'] + y)
    ensures x + [':'] + (u + [':'] + v) == (x + [':'] + u) + [':'] + v
    ensures x + [':'] + ((u + [':'] + v) + [':'] + y) == (x + [':'] + u) + [':'] + (v + [':'] + y)
  {}

  // Another approval with the same signed text, for any approval that is not plain.
  lemma OtherReading(a: Approval) returns (b: Approval)
    requires !Plain(a)
    ensures Canonical(b) == Canonical(a) && !SameFields(a, b) && b.expiresAt == a.expiresAt
  {
    var s4 := a.payloadHash + [':'] + a.approver;
    var s3 := a.target + [':'] + s4;
    var s2 := a.action + [':'] + s3;
    if !Free(a.id, ':') {
      var u, v := CutAt(a.id, ':');
      Recut("", u, v, a.tenant + [':'] + s2);
      Recut("", v, a.tenant, s2);
      b := a.(id := u, tenant := v + [':'] + a.tenant);
    } else if !Free(a.tenant, ':') {
      var u, v := CutAt(a.tenant, ':');
      Recut(a.id, u, v, s2);
      b := a.(id := a.id + [':'] + u, tenant := v);
    } else if !Free(a.action, ':') {
      var u, v := CutAt(a.action, ':');
      Recut(a.tenant, u, v, s3);
      b := a.(tenant := a.tenant + [':'] + u, action := v);
    } else if !Free(a.target, ':') {
      var u, v := CutAt(a.target, ':');
      Recut(a.action, u, v, s4);
      b := a.(action := a.action + [':'] + u, target := v);
    } else if !Free(a.payloadHash, ':') {
      var u, v := CutAt(a.payloadHash, ':');
      Recut(a.target, u, v, a.approver);
      b := a.(target := a.target + [':'] + u, payloadHash := v);
    } else {
      var u, v := CutAt(a.approver, ':');
      Recut(a.payloadHash, u, v, "");
      b := a.(payloadHash := a.payloadHash + [':'] + u, approver := v);
    }
  }

  // Exactly the approvals without the separator in a field have an unambiguous signed text.
  lemma UnambiguousIffPlain(a: Approval)
    ensures (forall b :: Canonical(b) == Canonical(a) ==> SameFields(a, b)) <==> Plain(a)
  {
    if Plain(a) {
      forall b | Canonical(b) == Canonical(a) ensures SameFields(a, b) { CanonicalDetermines(a, b); }
    } else {
      var b := OtherReading(a);
    }
  }

  // ---------- verification and consumption ----------

  datatype Fault = Tenant | Action | Target | Expired | PayloadMismatch | BadSignature | Consumed | TooFew | DuplicateApprover

  // What an approval is checked against.
  datatype Expectation = Expectation(tenant: string, action: string, target: string, payload: string, now: real)

  function VerifySingle(c: Crypto, consumed: set<string>, a: Approval, x: Expectation): Option<Fault> {
    if a.tenant != x.tenant then Some(Tenant)
    else if a.action != x.action then Some(Action)
    else if a.target != x.target then Some(Target)
    else if a.expiresAt < x.now then Some(Expired)
    else if a.payloadHash != c.hash(x.payload) then Some(PayloadMismatch)
    else if a.signature != c.mac(Canonical(a)) then Some(BadSignature)
    else if a.id in consumed then Some(Consumed)
    else None
  }

  // The two faults of the list as a whole.
  predicate IsCount(f: Option<Fault>) { f == Some(TooFew) || f == Some(DuplicateApprover) }

  lemma SingleIsNoCount(c: Crypto, consumed: set<string>, a: Approval, x: Expectation)
    ensures !IsCount(VerifySingle(c, consumed, a, x))
  {
    hide Canonical;
  }

  predicate DistinctApprovers(s: seq<Approval>) {
    forall i, j :: 0 <= i < j < |s| ==> s[i].approver != s[j].approver
  }

  function Ids(s: seq<Approval>): set<string> { set a | a in s :: a.id }

  ghost predicate QuorumHolds(c: Crypto, consumed: set<string>, s: seq<Approval>, required: int, x: Expectation) {
    |s| >= required && DistinctApprovers(s) && forall i :: 0 <= i < |s| ==> VerifySingle(c, consumed, s[i], x) == None
  }

  // ---------- the breaker ----------

  datatype State = Normal | Paused

  datatype Place = Place(tenant: string, org: string)

  datatype Row = Row(place: Place, resume: bool, before: State, after: State, approvals: seq<Approval>)

  datatype Breaker = Breaker(rows: map<Place, State>, audit: seq<Row>, consumed: set<string>)

  function StateAt(b: Breaker, p: Place): State { if p in b.rows then b.rows[p] else Normal }

  function Pause(b: Breaker, p: Place): Breaker {
    b.(rows := b.rows[p := Paused], audit := b.audit + [Row(p, false, StateAt(b, p), Paused, [])])
  }

  function Consume(b: Breaker, s: seq<Approval>): Breaker { b.(consumed := b.consumed + Ids(s)) }

  function ResumeExpectation(p: Place, now: real): Expectation {
    Expectation(p.tenant, Resumption, p.org, PayloadOf(p.org), now)
  }

  function Approvers(s: seq<Approval>): seq<string> {
    seq(|s|, i requires 0 <= i < |s| => s[i].approver)
  }

  function ToSet(s: seq<string>): set<string> { set x | x in s }

  ghost predicate MayResume(c: Crypto, b: Breaker, p: Place, approvers: seq<string>, s: seq<Approval>, now: real) {
    && |ToSet(approvers)| >= 2 && |s| >= 2 && Approvers(s) == approvers
    && QuorumHolds(c, b.consumed, s, 2, ResumeExpectation(p, now))
  }

  function Resumed(b: Breaker, p: Place, s: seq<Approval>): Breaker {
    Consume(b, s).(rows := b.rows[p := Normal], audit := b.audit + [Row(p, true, StateAt(b, p), Normal, s)])
  }

  // ---------- runs ----------

  // `issued` is every approval ever signed under the key.
  datatype World = World(breaker: Breaker, issued: set<Approval>, next: nat)

  // A resume may die after the approvals are consumed and before the state row is written.
  datatype Step =
    | DoIssue(tenant: string, action: string, target: string, payload: string, approver: string, expiresAt: real)
    | DoPause(place: Place)
    | DoResume(place: Place, approvers: seq<string>, approvals: seq<Approval>, now: real, crash: bool)
    | DoConsume(approvals: seq<Approval>, required: int, expected: Expectation)

  ghost predicate Unforged(c: Crypto, w: World, s: seq<Approval>) {
    forall i :: 0 <= i < |s| && s[i].signature == c.mac(Canonical(s[i])) ==>
      exists a :: a in w.issued && Canonical(a) == Canonical(s[i])
  }

  // Only issued approvals have valid signatures.
  ghost predicate Fair(c: Crypto, w: World, s: Step) {
    && (s.DoResume? ==> Unforged(c, w, s.approvals))
    && (s.DoConsume? ==> Unforged(c, w, s.approvals))
  }

  ghost function Next(c: Crypto, w: World, s: Step): World {
    match s
    case DoIssue(tenant, action, target, payload, approver, expiresAt) =>
      w.(issued := w.issued + {Issued(c, c.uuid(w.next), tenant, action, target, payload, approver, expiresAt)}, next := w.next + 1)
    case DoPause(p) => w.(breaker := Pause(w.breaker, p))
    case DoResume(p, approvers, s, now, crash) =>
      if !MayResume(c, w.breaker, p, approvers, s, now) then w
      else w.(breaker := if crash then Consume(w.breaker, s) else Resumed(w.breaker, p, s))
    case DoConsume(s, required, x) =>
      if QuorumHolds(c, w.breaker.consumed, s, required, x) then w.(breaker := Consume(w.breaker, s)) else w
  }

  // State of a place according to the audit trail alone.
  function Replay(audit: seq<Row>, p: Place): State {
    if audit == [] then Normal
    else if audit[|audit| - 1].place == p then audit[|audit| - 1].after
    else Replay(audit[..|audit| - 1], p)
  }

  ghost predicate Chained(audit: seq<Row>) {
    forall i :: 0 <= i < |audit| ==> audit[i].before == Replay(audit[..i], audit[i].place)
  }

  function Resumes(audit: seq<Row>): nat {
    if audit == [] then 0 else Resumes(audit[..|audit| - 1]) + (if audit[|audit| - 1].resume then 1 else 0)
  }

  ghost predicate Trail(b: Breaker) {
    Chained(b.audit) && forall p :: StateAt(b, p) == Replay(b.audit, p)
  }

  // Ids used by one resume are consumed and used by no other.
  ghost predicate UsedOnce(b: Breaker) {
    && (forall i :: 0 <= i < |b.audit| ==> Ids(b.audit[i].approvals) <= b.consumed)
    && (forall i, j :: 0 <= i < j < |b.audit| ==> Ids(b.audit[i].approvals) !! Ids(b.audit[j].approvals))
    && 2 * Resumes(b.audit) <= |b.consumed|
  }

  ghost predicate Register(c: Crypto, issued: set<Approval>, n: nat) {
    && (forall a :: a in issued ==> exists k: nat :: k < n && a.id == c.uuid(k))
    && (forall a, b :: a in issued && b in issued && a.id == b.id ==> a == b)
  }

  ghost predicate Inv(c: Crypto, w: World) {
    Trail(w.breaker) && UsedOnce(w.breaker) && Register(c, w.issued, w.next)
  }

  lemma IssueKeepsRegister(c: Crypto, w: World, s: Step)
    requires Sound(c) && Register(c, w.issued, w.next) && s.DoIssue?
    ensures Register(c, Next(c, w, s).issued, w.next + 1)
  {
    hide Canonical, Free;
    var a := Issued(c, c.uuid(w.next), s.tenant, s.action, s.target, s.payload, s.approver, s.expiresAt);
    forall b | b in w.issued ensures b.id != a.id && exists k: nat :: k < w.next + 1 && b.id == c.uuid(k) {
      var k: nat :| k < w.next && b.id == c.uuid(k);
    }
  }

  lemma TrailGrows(b: Breaker, b': Breaker, p: Place, row: Row)
    requires Trail(b) && row.place == p && row.before == StateAt(b, p)
    requires b'.audit == b.audit + [row] && b'.rows == b.rows[p := row.after]
    ensures Trail(b')
  {
    var n := |b.audit|;
    assert b'.audit[..n] == b.audit;
    forall i | 0 <= i < |b'.audit| ensures b'.audit[i].before == Replay(b'.audit[..i], b'.audit[i].place) {
      if i < n { assert b'.audit[..i] == b.audit[..i]; }
    }
  }

  // A quorum of unforged approvals carries as many distinct, unconsumed ids as approvals, whatever
  // the names are.
  lemma QuorumIds(c: Crypto, w: World, s: seq<Approval>, required: int, e: Expectation)
    requires Sound(c) && Register(c, w.issued, w.next) && Unforged(c, w, s)
    requires QuorumHolds(c, w.breaker.consumed, s, required, e)
    ensures |Ids(s)| == |s| && Ids(s) !! w.breaker.consumed
  {
    hide Canonical;
    forall i, j | 0 <= i < j < |s| ensures s[i].id != s[j].id {
      var x, y := s[i], s[j];
      assert VerifySingle(c, w.breaker.consumed, x, e) == None && VerifySingle(c, w.breaker.consumed, y, e) == None;
      var a :| a in w.issued && Canonical(a) == Canonical(x);
      var b :| b in w.issued && Canonical(b) == Canonical(y);
      if x.id == y.id {
        assert Free(a.id, ':') && Free(b.id, ':');
        SameToken(a, x, b, y);
        SameApprover(x, y);
      }
    }
    IdsCount(s);
  }

  // The text up to the first separator.
  function Token(s: string): string {
    if s == [] || s[0] == ':' then [] else [s[0]] + Token(s[1..])
  }

  lemma {:induction false} TokenJoin(q: string, u: string)
    ensures Token(q + [':'] + u) == Token(q + [':'])
    ensures Free(q, ':') ==> Token(q + [':'] + u) == q
    decreases |q|
  {
    if q != [] {
      assert (q + [':'] + u)[1..] == q[1..] + [':'] + u && (q + [':'])[1..] == q[1..] + [':'];
      assert q == [q[0]] + q[1..];
      TokenJoin(q[1..], u);
    }
  }

  // What was issued under the text of two approvals with one id has one id itself.
  lemma SameToken(a: Approval, x: Approval, b: Approval, y: Approval)
    requires Canonical(a) == Canonical(x) && Canonical(b) == Canonical(y) && x.id == y.id
    requires Free(a.id, ':') && Free(b.id, ':')
    ensures a.id == b.id
  {
    IdFirst(a);
    IdFirst(x);
    IdFirst(b);
    IdFirst(y);
    hide Canonical, Token;
    TokenJoin(a.id, AfterId(a));
    TokenJoin(x.id, AfterId(x));
    TokenJoin(b.id, AfterId(b));
    TokenJoin(y.id, AfterId(y));
  }

  function AfterId(a: Approval): string {
    a.tenant + [':'] + (a.action + [':'] + (a.target + [':'] + (a.payloadHash + [':'] + a.approver)))
    + [':'] + Numeral(Ticks(a.expiresAt))
  }

  lemma IdFirst(a: Approval)
    ensures Canonical(a) == a.id + [':'] + AfterId(a)
  {
    var rest := a.tenant + [':'] + (a.action + [':'] + (a.target + [':'] + (a.payloadHash + [':'] + a.approver)));
    var n := Numeral(Ticks(a.expiresAt));
    hide Numeral, Ticks;
    assert (a.id + [':'] + rest) + [':'] + n == a.id + [':'] + (rest + [':'] + n);
  }

  // Approvals checked against one expectation that share id and signed text share the approver.
  lemma SameApprover(x: Approval, y: Approval)
    requires x.id == y.id && x.tenant == y.tenant && x.action == y.action && x.target == y.target
    requires x.payloadHash == y.payloadHash
    ensures Canonical(x) == Canonical(y) ==> x.approver == y.approver
  {
    if Canonical(x) == Canonical(y) {
      NumeralFree(Ticks(x.expiresAt), ':');
      NumeralFree(Ticks(y.expiresAt), ':');
      SplitLast(':', Head(x), Numeral(Ticks(x.expiresAt)), Head(y), Numeral(Ticks(y.expiresAt)));
      var n := |x.id| + 1 + |x.tenant| + 1 + |x.action| + 1 + |x.target| + 1 + |x.payloadHash| + 1;
      ApproverLast(x, n);
      ApproverLast(y, n);
    }
  }

  lemma ApproverLast(x: Approval, n: nat)
    requires n == |x.id| + 1 + |x.tenant| + 1 + |x.action| + 1 + |x.target| + 1 + |x.payloadHash| + 1
    ensures n <= |Head(x)| && Head(x)[n..] == x.approver
  {}

  lemma {:induction false} IdsCount(s: seq<Approval>)
    requires forall i, j :: 0 <= i < j < |s| ==> s[i].id != s[j].id
    ensures |Ids(s)| == |s|
    decreases |s|
  {
    if s != [] {
      var n := |s| - 1;
      var front := s[..n];
      IdsCount(front);
      assert s == front + [s[n]];
      assert Ids(s) == Ids(front) + {s[n].id};
      assert s[n].id !in Ids(front);
    }
  }

  lemma ResumeUsesOnce(b: Breaker, p: Place, s: seq<Approval>)
    requires UsedOnce(b) && |s| >= 2 && |Ids(s)| == |s| && Ids(s) !! b.consumed
    ensures UsedOnce(Resumed(b, p, s))
  {
    var b' := Resumed(b, p, s);
    var n := |b.audit|;
    assert b'.audit[..n] == b.audit;
    assert |b'.consumed| == |b.consumed| + |s|;
    hide Ids;
  }

  lemma PauseUsesOnce(b: Breaker, p: Place)
    requires UsedOnce(b)
    ensures UsedOnce(Pause(b, p))
  {
    assert Ids([]) == {};
    assert Pause(b, p).audit[..|b.audit|] == b.audit;
    hide Ids;
  }

  lemma ConsumeKeeps(b: Breaker, s: seq<Approval>)
    requires UsedOnce(b) && Trail(b)
    ensures UsedOnce(Consume(b, s)) && Trail(Consume(b, s))
  {
    SubsetSize(b.consumed, b.consumed + Ids(s));
    hide Ids;
  }

  lemma {:induction false} SubsetSize(x: set<string>, y: set<string>)
    requires x <= y
    ensures |x| <= |y|
    decreases x
  {
    if x != {} {
      var e :| e in x;
      SubsetSize(x - {e}, y - {e});
    }
  }

  lemma NextKeepsInv(c: Crypto, w: World, s: Step)
    requires Sound(c) && Inv(c, w) && Fair(c, w, s)
    ensures Inv(c, Next(c, w, s))
  {
    hide Sound, Register, Trail, UsedOnce, Ids, QuorumHolds;
    match s
    case DoIssue(_, _, _, _, _, _) => IssueKeepsRegister(c, w, s);
    case DoPause(p) =>
      TrailGrows(w.breaker, Pause(w.breaker, p), p, Row(p, false, StateAt(w.breaker, p), Paused, []));
      PauseUsesOnce(w.breaker, p);
    case DoResume(p, approvers, s, now, crash) =>
      if MayResume(c, w.breaker, p, approvers, s, now) {
        QuorumIds(c, w, s, 2, ResumeExpectation(p, now));
        ConsumeKeeps(w.breaker, s);
        TrailGrows(w.breaker, Resumed(w.breaker, p, s), p, Row(p, true, StateAt(w.breaker, p), Normal, s));
        ResumeUsesOnce(w.breaker, p, s);
      }
    case DoConsume(s, required, x) => ConsumeKeeps(w.breaker, s);
  }

  ghost function Run(c: Crypto, w: World, steps: seq<Step>): World
    decreases |steps|
  {
    if steps == [] then w else Run(c, Next(c, w, steps[0]), steps[1..])
  }

  ghost predicate FairRun(c: Crypto, w: World, steps: seq<Step>)
    decreases |steps|
  {
    steps == [] || (Fair(c, w, steps[0]) && FairRun(c, Next(c, w, steps[0]), steps[1..]))
  }

  lemma {:induction false} RunKeepsInv(c: Crypto, w: World, steps: seq<Step>)
    requires Sound(c) && Inv(c, w) && FairRun(c, w, steps)
    ensures Inv(c, Run(c, w, steps))
    decreases |steps|
  {
    hide Sound, Inv, Next, Fair;
    if steps != [] {
      NextKeepsInv(c, w, steps[0]);
      RunKeepsInv(c, Next(c, w, steps[0]), steps[1..]);
    }
  }

  function Start(): World { World(Breaker(map[], [], {}), {}, 0) }

  // Over every run of issues, pauses, resumes (crashing or not) and other quorum decisions.
  lemma EveryRunIsSound(c: Crypto, steps: seq<Step>)
    requires Sound(c) && FairRun(c, Start(), steps)
    ensures var b := Run(c, Start(), steps).breaker;
            && 2 * Resumes(b.audit) <= |b.consumed|
            && (forall i, j, x :: 0 <= i < j < |b.audit| && x in Ids(b.audit[i].approvals) ==> x !in Ids(b.audit[j].approvals))
            && (forall p :: StateAt(b, p) == Replay(b.audit, p))
            && (forall i :: 0 <= i < |b.audit| ==> b.audit[i].before == Replay(b.audit[..i], b.audit[i].place))
  {
    assert Inv(c, Start());
    RunKeepsInv(c, Start(), steps);
    hide Run, Ids, Replay, Register;
  }

  // ---------- the objects ----------

  class AdminGovernanceManager {
    var consumed: set<string>

    constructor ()
      ensures consumed == {}
    {
      consumed := {};
    }

    // None: the quorum held and its approvals are consumed now.
    method VerifyAndConsumeQuorum(c: Crypto, s: seq<Approval>, required: int, x: Expectation) returns (fault: Option<Fault>)
      modifies this
      ensures fault.None? <==> QuorumHolds(c, old(consumed), s, required, x)
      ensures consumed == (if fault.None? then old(consumed) + Ids(s) else old(consumed))
      ensures fault == Some(TooFew) <==> |s| < required
      ensures fault == Some(DuplicateApprover) <==> |s| >= required && !DistinctApprovers(s)
      ensures |s| >= required && DistinctApprovers(s) && fault.Some? ==>
                exists i :: && 0 <= i < |s| && fault == VerifySingle(c, old(consumed), s[i], x)
                            && forall k :: 0 <= k < i ==> VerifySingle(c, old(consumed), s[k], x) == None
    {
      hide Canonical, VerifySingle;
      forall i | 0 <= i < |s| ensures !IsCount(VerifySingle(c, consumed, s[i], x)) { SingleIsNoCount(c, consumed, s[i], x); }
      if |s| < required { return Some(TooFew); }
      var distinct := CheckApprovers(s);
      if !distinct { return Some(DuplicateApprover); }
      for i := 0 to |s|
        invariant consumed == old(consumed)
        invariant forall k :: 0 <= k < i ==> VerifySingle(c, consumed, s[k], x) == None
      {
        fault := VerifySingle(c, consumed, s[i], x);
        if fault.Some? { return; }
      }
      for i := 0 to |s|
        invariant consumed == old(consumed) + Ids(s[..i])
      {
        assert s[..i + 1] == s[..i] + [s[i]];
        consumed := consumed + {s[i].id};
      }
      assert s[..|s|] == s;
      fault := None;
    }

    // The set of approvers is as large as the list exactly when they are pairwise different.
    method CheckApprovers(s: seq<Approval>) returns (distinct: bool)
      ensures distinct <==> DistinctApprovers(s)
    {
      var seen: set<string> := {};
      for i := 0 to |s|
        invariant seen == (set k | 0 <= k < i :: s[k].approver)
        invariant DistinctApprovers(s[..i])
      {
        if s[i].approver in seen { return false; }
        seen := seen + {s[i].approver};
      }
      assert s[..|s|] == s;
      distinct := true;
    }
  }

  class SystemCircuitBreaker {
    const manager: AdminGovernanceManager?
    var rows: map<Place, State>
    var audit: seq<Row>

    ghost function State(): Breaker
      reads this, manager
    {
      Breaker(rows, audit, if manager == null then {} else manager.consumed)
    }

    constructor (manager: AdminGovernanceManager?)
      ensures this.manager == manager && rows == map[] && audit == []
    {
      this.manager := manager;
      rows, audit := map[], [];
    }

    function GetState(p: Place): State
      reads this
    {
      if p in rows then rows[p] else Normal
    }

    method PausePlace(p: Place)
      modifies this
      ensures State() == Pause(old(State()), p)
    {
      var before := GetState(p);
      rows := rows[p := Paused];
      audit := audit + [Row(p, false, before, Paused, [])];
    }

    // A breaker without a governance manager resumes nothing.
    method ResumePlace(c: Crypto, p: Place, approvers: seq<string>, s: seq<Approval>, now: real) returns (ok: bool)
      modifies this, manager
      ensures ok <==> manager != null && MayResume(c, old(State()), p, approvers, s, now)
      ensures State() == (if ok then Resumed(old(State()), p, s) else old(State()))
    {
      if manager == null || |ToSet(approvers)| < 2 || |s| < 2 || Approvers(s) != approvers { return false; }
      var fault := manager.VerifyAndConsumeQuorum(c, s, 2, ResumeExpectation(p, now));
      if fault.Some? { return false; }
      var before := GetState(p);
      rows := rows[p := Normal];
      audit := audit + [Row(p, true, before, Normal, s)];
      return true;
    }
  }
}
