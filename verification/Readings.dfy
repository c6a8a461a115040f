// What a signed administrative approval can be read as, and so what a resume of the circuit breaker
// rests on: the signed text joins its fields, and a field that holds the separator can be cut again.
module Readings {
  import opened Text
  import opened Quorum

  // ---------- readings and markers ----------

  // s is a resume approval for p that carries the signed text of a.
  ghost predicate Reads(c: Crypto, p: Place, a: Approval, s: Approval) {
    Canonical(s) == Canonical(a) && ForPlace(c, p, s)
  }

  predicate ForPlace(c: Crypto, p: Place, s: Approval) {
    s.tenant == p.tenant && s.action == Resumption && s.target == p.org && s.payloadHash == c.hash(PayloadOf(p.org))
  }

  // :tenant:action:target:hash: as it stands between the id and the approver.
  function Marker(c: Crypto, p: Place): string {
    [':'] + (p.tenant + [':'] + (Resumption + [':'] + (p.org + [':'] + (c.hash(PayloadOf(p.org)) + [':']))))
  }

  predicate At(h: string, m: string, n: nat) { n + |m| <= |h| && h[n..n + |m|] == m }

  lemma Inside(x: string, m: string, y: string)
    ensures At(x + m + y, m, |x|)
  {}

  // Everything signed but the expiry is the id, the marker and the approver.
  lemma HeadIs(c: Crypto, p: Place, s: Approval)
    requires ForPlace(c, p, s)
    ensures Head(s) == s.id + Marker(c, p) + s.approver
  {
    var h := c.hash(PayloadOf(p.org));
    assert h + [':'] + s.approver == (h + [':']) + s.approver;
    assert p.org + [':'] + (h + [':'] + s.approver) == (p.org + [':'] + (h + [':'])) + s.approver;
    assert Resumption + [':'] + (p.org + [':'] + (h + [':'] + s.approver)) ==
           (Resumption + [':'] + (p.org + [':'] + (h + [':']))) + s.approver;
    hide PayloadOf;
    assert p.tenant + [':'] + ((Resumption + [':'] + (p.org + [':'] + (h + [':']))) + s.approver) ==
           (p.tenant + [':'] + (Resumption + [':'] + (p.org + [':'] + (h + [':'])))) + s.approver;
    var body := p.tenant + [':'] + (Resumption + [':'] + (p.org + [':'] + (h + [':'])));
    assert s.id + [':'] + (body + s.approver) == s.id + ([':'] + body) + s.approver;
  }

  lemma SameText(a: Approval, s: Approval)
    requires Canonical(s) == Canonical(a)
    ensures Head(s) == Head(a) && s.expiresAt - 0.0001 <= a.expiresAt <= s.expiresAt + 0.0001
  {
    hide Head;
    NumeralFree(Ticks(a.expiresAt), ':');
    NumeralFree(Ticks(s.expiresAt), ':');
    SplitLast(':', Head(s), Numeral(Ticks(s.expiresAt)), Head(a), Numeral(Ticks(a.expiresAt)));
    NumeralInjective(Ticks(s.expiresAt), Ticks(a.expiresAt));
    TicksClose(s.expiresAt, a.expiresAt);
  }

  // A reading is the same as a place where the marker stands.
  lemma ReadingIsMarker(c: Crypto, p: Place, a: Approval, s: Approval)
    requires Reads(c, p, a, s)
    ensures var m := Marker(c, p);
            At(Head(a), m, |s.id|) && s.id == Head(a)[..|s.id|] && s.approver == Head(a)[|s.id| + |m|..]
  {
    SameText(a, s);
    HeadIs(c, p, s);
    hide Head, Marker, Canonical;
  }

  function Reading(c: Crypto, p: Place, a: Approval, n: nat): Approval
    requires At(Head(a), Marker(c, p), n)
  {
    var m := Marker(c, p);
    Approval(Head(a)[..n], p.tenant, Resumption, p.org, c.hash(PayloadOf(p.org)), Head(a)[n + |m|..], a.expiresAt, a.signature)
  }

  lemma MarkerIsReading(c: Crypto, p: Place, a: Approval, n: nat)
    requires At(Head(a), Marker(c, p), n)
    ensures var s := Reading(c, p, a, n); Reads(c, p, a, s) && |s.id| == n
  {
    var s := Reading(c, p, a, n);
    HeadIs(c, p, s);
    hide Marker;
    var h, m := Head(a), Marker(c, p);
    assert h == h[..n] + h[n..n + |m|] + h[n + |m|..];
    assert Head(s) == Head(a);
    hide Head;
  }

  // ---------- the exact conditions ----------

  // The marker of one place stands at two positions.
  ghost predicate TwoVotes(c: Crypto, a: Approval, p: Place) {
    exists n, m :: n < m && At(Head(a), Marker(c, p), n) && At(Head(a), Marker(c, p), m)
  }

  // All markers, of all places, stand at one position.
  ghost predicate OneMarker(c: Crypto, a: Approval) {
    forall p, q, n, m :: At(Head(a), Marker(c, p), n) && At(Head(a), Marker(c, q), m) ==> n == m
  }

  // One signed text gives two votes of different people for a place exactly when its marker occurs twice.
  lemma TwoVotesIff(c: Crypto, a: Approval, p: Place)
    ensures (exists s, t :: Reads(c, p, a, s) && Reads(c, p, a, t) && s.approver != t.approver) <==> TwoVotes(c, a, p)
  {
    if s, t :| Reads(c, p, a, s) && Reads(c, p, a, t) && s.approver != t.approver { DifferentVotes(c, p, a, s, t); }
    if TwoVotes(c, a, p) {
      var n, m :| n < m && At(Head(a), Marker(c, p), n) && At(Head(a), Marker(c, p), m);
      MarkerIsReading(c, p, a, n);
      MarkerIsReading(c, p, a, m);
      ReadingsDiffer(c, p, a, n, m);
    }
  }

  lemma DifferentVotes(c: Crypto, p: Place, a: Approval, s: Approval, t: Approval)
    requires Reads(c, p, a, s) && Reads(c, p, a, t) && s.approver != t.approver
    ensures TwoVotes(c, a, p)
  {
    ReadingIsMarker(c, p, a, s);
    ReadingIsMarker(c, p, a, t);
    hide Head, Marker, Canonical;
    if |s.id| < |t.id| { assert At(Head(a), Marker(c, p), |s.id|) && At(Head(a), Marker(c, p), |t.id|); }
    else { assert At(Head(a), Marker(c, p), |t.id|) && At(Head(a), Marker(c, p), |s.id|); }
  }

  lemma ReadingsDiffer(c: Crypto, p: Place, a: Approval, n: nat, m: nat)
    requires n < m && At(Head(a), Marker(c, p), n) && At(Head(a), Marker(c, p), m)
    ensures Reading(c, p, a, n).approver != Reading(c, p, a, m).approver
  {
    hide Head, Marker;
    assert |Reading(c, p, a, n).approver| > |Reading(c, p, a, m).approver|;
  }

  // One signed text gives resume approvals of two ids exactly when markers stand at two positions.
  lemma TwoIdsIff(c: Crypto, a: Approval)
    ensures (exists p, q, s, t :: Reads(c, p, a, s) && Reads(c, q, a, t) && s.id != t.id) <==> !OneMarker(c, a)
  {
    if p, q, s, t :| Reads(c, p, a, s) && Reads(c, q, a, t) && s.id != t.id { OneId(c, p, q, a, s, t); }
    if !OneMarker(c, a) {
      var p, q, n, m :| At(Head(a), Marker(c, p), n) && At(Head(a), Marker(c, q), m) && n != m;
      MarkerIsReading(c, p, a, n);
      MarkerIsReading(c, q, a, m);
    }
  }

  lemma OneId(c: Crypto, p: Place, q: Place, a: Approval, s: Approval, t: Approval)
    requires Reads(c, p, a, s) && Reads(c, q, a, t)
    ensures OneMarker(c, a) ==> s.id == t.id
  {
    ReadingIsMarker(c, p, a, s);
    ReadingIsMarker(c, q, a, t);
    hide Head, Marker, Canonical, At;
  }

  // A text whose markers stand at one position gives no two votes.
  lemma OneMarkerOneVote(c: Crypto, a: Approval, p: Place)
    ensures OneMarker(c, a) ==> !TwoVotes(c, a, p)
  {
    hide Head, Marker, At;
  }

  // Separator-free fields are enough.
  lemma PlainHasOneMarker(c: Crypto, a: Approval)
    requires Plain(a)
    ensures OneMarker(c, a)
  {
    forall p, q, n, m | At(Head(a), Marker(c, p), n) && At(Head(a), Marker(c, q), m) ensures n == m {
      MarkerIsReading(c, p, a, n);
      MarkerIsReading(c, q, a, m);
      CanonicalDetermines(a, Reading(c, p, a, n));
      CanonicalDetermines(a, Reading(c, q, a, m));
    }
  }

  // ---------- what a resume rests on ----------

  // A vote: the reading s of the issued approval a, not consumed, alive.
  ghost predicate Vote(c: Crypto, w: World, p: Place, now: real, a: Approval, s: Approval) {
    a in w.issued && Reads(c, p, a, s) && s.id !in w.breaker.consumed && now <= s.expiresAt <= a.expiresAt + 0.0001
  }

  // A resume rests on votes of two different people. They come from two different issued approvals
  // unless the one approval has the marker of this place twice.
  lemma ResumeRestsOnTwo(c: Crypto, w: World, p: Place, approvers: seq<string>, s: seq<Approval>, now: real)
    requires Unforged(c, w, s) && MayResume(c, w.breaker, p, approvers, s, now)
    ensures exists a, b, x, y ::
              && Vote(c, w, p, now, a, x) && Vote(c, w, p, now, b, y) && x.approver != y.approver
              && (a == b ==> TwoVotes(c, a, p))
  {
    hide Canonical, TwoVotes;
    var a := VoteOf(c, w, p, s, 0, now);
    var b := VoteOf(c, w, p, s, 1, now);
    assert s[0].approver != s[1].approver;
    if a == b { DifferentVotes(c, p, a, s[0], s[1]); }
  }

  lemma SignedOf(c: Crypto, w: World, s: seq<Approval>, i: nat) returns (a: Approval)
    requires Unforged(c, w, s) && i < |s| && s[i].signature == c.mac(Canonical(s[i]))
    ensures a in w.issued && Canonical(a) == Canonical(s[i])
  {
    hide Canonical;
    a :| a in w.issued && Canonical(a) == Canonical(s[i]);
  }

  lemma VoteOf(c: Crypto, w: World, p: Place, s: seq<Approval>, i: nat, now: real) returns (a: Approval)
    requires Unforged(c, w, s) && i < |s| && QuorumHolds(c, w.breaker.consumed, s, 2, ResumeExpectation(p, now))
    ensures Vote(c, w, p, now, a, s[i])
  {
    hide Canonical;
    var x := s[i];
    assert VerifySingle(c, w.breaker.consumed, x, ResumeExpectation(p, now)).None?;
    a := SignedOf(c, w, s, i);
    SameText(a, x);
  }

  // ---------- what the audit trail records ----------

  ghost predicate FromIssued(c: Crypto, issued: set<Approval>, p: Place, s: Approval) {
    exists a :: a in issued && Reads(c, p, a, s)
  }

  // A resume row lists approvals for its place, by different people, each read from an issued one.
  ghost predicate WellRead(c: Crypto, issued: set<Approval>, row: Row) {
    row.resume ==>
      && |row.approvals| >= 2 && DistinctApprovers(row.approvals)
      && forall k :: 0 <= k < |row.approvals| ==> FromIssued(c, issued, row.place, row.approvals[k])
  }

  ghost predicate AllRead(c: Crypto, w: World) {
    forall i :: 0 <= i < |w.breaker.audit| ==> WellRead(c, w.issued, w.breaker.audit[i])
  }

  lemma ResumeIsRead(c: Crypto, w: World, p: Place, approvers: seq<string>, s: seq<Approval>, now: real, before: State)
    requires Unforged(c, w, s) && MayResume(c, w.breaker, p, approvers, s, now)
    ensures WellRead(c, w.issued, Row(p, true, before, Normal, s))
  {
    hide Canonical;
    forall k | 0 <= k < |s| ensures FromIssued(c, w.issued, p, s[k]) {
      var a := VoteOf(c, w, p, s, k, now);
    }
  }

  lemma WellReadLater(c: Crypto, issued: set<Approval>, more: set<Approval>, row: Row)
    requires WellRead(c, issued, row) && issued <= more
    ensures WellRead(c, more, row)
  {
    if row.resume {
      forall k | 0 <= k < |row.approvals| ensures FromIssued(c, more, row.place, row.approvals[k]) {
        assert FromIssued(c, issued, row.place, row.approvals[k]);
        var a :| a in issued && Reads(c, row.place, a, row.approvals[k]);
      }
    }
  }

  lemma NextIsRead(c: Crypto, w: World, s: Step)
    requires AllRead(c, w) && Fair(c, w, s)
    ensures AllRead(c, Next(c, w, s)) && w.issued <= Next(c, w, s).issued
  {
    hide WellRead, Unforged, MayResume, QuorumHolds, Issued;
    var w' := Next(c, w, s);
    forall i | 0 <= i < |w.breaker.audit| ensures WellRead(c, w'.issued, w.breaker.audit[i]) {
      WellReadLater(c, w.issued, w'.issued, w.breaker.audit[i]);
    }
    match s
    case DoIssue(_, _, _, _, _, _) =>
    case DoPause(p) => PauseIsRead(c, w'.issued, Row(p, false, StateAt(w.breaker, p), Paused, []));
    case DoResume(p, approvers, s, now, crash) =>
      if MayResume(c, w.breaker, p, approvers, s, now) { ResumeIsRead(c, w, p, approvers, s, now, StateAt(w.breaker, p)); }
    case DoConsume(_, _, _) =>
  }

  lemma PauseIsRead(c: Crypto, issued: set<Approval>, row: Row)
    requires !row.resume
    ensures WellRead(c, issued, row)
  {}

  lemma {:induction false} RunIsRead(c: Crypto, w: World, steps: seq<Step>)
    requires AllRead(c, w) && FairRun(c, w, steps)
    ensures AllRead(c, Run(c, w, steps)) && w.issued <= Run(c, w, steps).issued
    decreases |steps|
  {
    hide AllRead, Next, Fair;
    if steps != [] {
      NextIsRead(c, w, steps[0]);
      RunIsRead(c, Next(c, w, steps[0]), steps[1..]);
    }
  }

  // ---------- how many resumes one approval serves ----------

  // The resume recorded in a row was obtained with the signed text of a.
  ghost predicate Backs(a: Approval, row: Row) {
    row.resume && exists i :: 0 <= i < |row.approvals| && Canonical(row.approvals[i]) == Canonical(a)
  }

  ghost predicate ServesOnce(a: Approval, audit: seq<Row>) {
    forall i, j :: 0 <= i < j < |audit| ==> !(Backs(a, audit[i]) && Backs(a, audit[j]))
  }

  ghost predicate Disjoint(audit: seq<Row>) {
    forall i, j :: 0 <= i < j < |audit| ==> Ids(audit[i].approvals) !! Ids(audit[j].approvals)
  }

  lemma RunIsDisjoint(c: Crypto, steps: seq<Step>)
    requires Sound(c) && FairRun(c, Start(), steps)
    ensures AllRead(c, Run(c, Start(), steps)) && Disjoint(Run(c, Start(), steps).breaker.audit)
  {
    RunIsRead(c, Start(), steps);
    EveryRunIsSound(c, steps);
    hide Run, FairRun, AllRead, Ids, Replay;
    var audit := Run(c, Start(), steps).breaker.audit;
    forall i, j | 0 <= i < j < |audit| ensures Ids(audit[i].approvals) !! Ids(audit[j].approvals) {
      assert forall x :: x in Ids(audit[i].approvals) ==> x !in Ids(audit[j].approvals);
    }
  }

  // The id under which a row used the text of a.
  lemma BackingId(c: Crypto, issued: set<Approval>, a: Approval, row: Row) returns (s: Approval)
    requires WellRead(c, issued, row) && Backs(a, row)
    ensures Reads(c, row.place, a, s) && s.id in Ids(row.approvals)
  {
    var i :| 0 <= i < |row.approvals| && Canonical(row.approvals[i]) == Canonical(a);
    s := row.approvals[i];
    hide Canonical;
  }

  lemma OneMarkerServesOnce(c: Crypto, w: World, a: Approval)
    requires AllRead(c, w) && Disjoint(w.breaker.audit) && OneMarker(c, a)
    ensures ServesOnce(a, w.breaker.audit)
  {
    hide OneMarker, WellRead, Backs, Reads, Ids;
    var audit := w.breaker.audit;
    forall i, j | 0 <= i < j < |audit| ensures !(Backs(a, audit[i]) && Backs(a, audit[j])) {
      if Backs(a, audit[i]) && Backs(a, audit[j]) {
        var s := BackingId(c, w.issued, a, audit[i]);
        var t := BackingId(c, w.issued, a, audit[j]);
        OneId(c, audit[i].place, audit[j].place, a, s, t);
      }
    }
  }

  // What the issuing step of a world's first approval makes.
  function FirstIssued(c: Crypto, issue: Step): Approval
    requires issue.DoIssue?
  {
    Issued(c, c.uuid(0), issue.tenant, issue.action, issue.target, issue.payload, issue.approver, issue.expiresAt)
  }

  // An approval serves at most one resume, whatever happens after it was issued, exactly when all
  // markers in its text stand at one position.
  lemma ServesOnceIff(c: Crypto, issue: Step)
    requires Sound(c) && issue.DoIssue?
    ensures (forall more :: FairRun(c, Start(), [issue] + more) ==>
              ServesOnce(FirstIssued(c, issue), Run(c, Start(), [issue] + more).breaker.audit))
            <==> OneMarker(c, FirstIssued(c, issue))
  {
    hide Sound, FairRun, Run, ServesOnce, At;
    var a := FirstIssued(c, issue);
    if OneMarker(c, a) {
      forall more | FairRun(c, Start(), [issue] + more)
        ensures ServesOnce(a, Run(c, Start(), [issue] + more).breaker.audit)
      {
        RunIsDisjoint(c, [issue] + more);
        OneMarkerServesOnce(c, Run(c, Start(), [issue] + more), a);
      }
    } else {
      var p, q, n, m :| At(Head(a), Marker(c, p), n) && At(Head(a), Marker(c, q), m) && n != m;
      var more := ServesTwo(c, issue, p, q, n, m);
      TwoRowsServeTwo(a, Run(c, Start(), [issue] + more).breaker.audit);
    }
  }

  lemma TwoRowsServeTwo(a: Approval, audit: seq<Row>)
    requires |audit| == 2 && Backs(a, audit[0]) && Backs(a, audit[1])
    ensures !ServesOnce(a, audit)
  {}

  // ---------- two markers, two resumes ----------

  // A partner signed for one place by another person than x.
  function PartnerIssue(p: Place, x: Approval): Step {
    DoIssue(p.tenant, Resumption, p.org, PayloadOf(p.org), x.approver + "+", x.expiresAt)
  }

  function Partner(c: Crypto, k: nat, p: Place, x: Approval): Approval {
    Issued(c, c.uuid(k), p.tenant, Resumption, p.org, PayloadOf(p.org), x.approver + "+", x.expiresAt)
  }

  function ResumeWith(p: Place, x: Approval, y: Approval): Step {
    DoResume(p, [x.approver, y.approver], [x, y], x.expiresAt, false)
  }

  lemma IssuedIsSigned(c: Crypto, k: nat, tenant: string, action: string, target: string, payload: string, approver: string, expiresAt: real)
    ensures var a := Issued(c, c.uuid(k), tenant, action, target, payload, approver, expiresAt); a.signature == c.mac(Canonical(a))
  {
    var a := Issued(c, c.uuid(k), tenant, action, target, payload, approver, expiresAt);
    assert Canonical(a) == Canonical(a.(signature := ""));
  }

  // A signed vote for p.
  ghost predicate Ballot(c: Crypto, p: Place, a: Approval, x: Approval, now: real) {
    Reads(c, p, a, x) && x.signature == c.mac(Canonical(a)) && x.expiresAt == now
  }

  lemma ReadingIsBallot(c: Crypto, p: Place, a: Approval, n: nat)
    requires At(Head(a), Marker(c, p), n) && a.signature == c.mac(Canonical(a))
    ensures Ballot(c, p, a, Reading(c, p, a, n), a.expiresAt)
  {
    MarkerIsReading(c, p, a, n);
    hide Canonical, Head, Marker;
  }

  lemma PartnerIsBallot(c: Crypto, k: nat, p: Place, x: Approval)
    ensures Ballot(c, p, Partner(c, k, p, x), Partner(c, k, p, x), x.expiresAt)
    ensures Partner(c, k, p, x).approver != x.approver && Partner(c, k, p, x).id == c.uuid(k)
  {
    IssuedIsSigned(c, k, p.tenant, Resumption, p.org, PayloadOf(p.org), x.approver + "+", x.expiresAt);
    assert |x.approver + "+"| > |x.approver|;
    hide Canonical, PayloadOf;
  }

  // Two unconsumed ballots of different people carry a resume.
  lemma BallotsResume(c: Crypto, w: World, p: Place, a: Approval, b: Approval, x: Approval, y: Approval)
    requires a in w.issued && b in w.issued && Ballot(c, p, a, x, x.expiresAt) && Ballot(c, p, b, y, x.expiresAt)
    requires x.approver != y.approver && x.id !in w.breaker.consumed && y.id !in w.breaker.consumed
    ensures Fair(c, w, ResumeWith(p, x, y))
    ensures Next(c, w, ResumeWith(p, x, y)) == w.(breaker := Resumed(w.breaker, p, [x, y]))
  {
    hide Canonical;
    assert ToSet([x.approver, y.approver]) == {x.approver, y.approver};
    assert Approvers([x, y]) == [x.approver, y.approver];
    assert MayResume(c, w.breaker, p, [x.approver, y.approver], [x, y], x.expiresAt);
    hide MayResume, Resumed;
  }

  lemma ResumedIs(b: Breaker, p: Place, x: Approval, y: Approval)
    ensures var b' := Resumed(b, p, [x, y]);
            && b'.consumed == b.consumed + {x.id, y.id}
            && |b'.audit| == |b.audit| + 1 && b.audit <= b'.audit
            && b'.audit[|b.audit|].place == p && b'.audit[|b.audit|].resume && b'.audit[|b.audit|].approvals == [x, y]
  {
    assert forall z :: z in [x, y] <==> z == x || z == y;
    assert Ids([x, y]) == {x.id, y.id};
  }

  lemma Unroll(c: Crypto, w: World, s: Step, rest: seq<Step>)
    ensures Run(c, w, [s] + rest) == Run(c, Next(c, w, s), rest)
    ensures FairRun(c, w, [s] + rest) <==> Fair(c, w, s) && FairRun(c, Next(c, w, s), rest)
  {
    assert ([s] + rest)[1..] == rest;
  }

  lemma Ends(c: Crypto, w: World)
    ensures Run(c, w, []) == w && FairRun(c, w, [])
  {}

  // A reading of the first approval never has the id of another issued one.
  lemma ReadingIdIsOwn(c: Crypto, p: Place, a: Approval, x: Approval, k: nat)
    requires Sound(c) && Reads(c, p, a, x) && a.id == c.uuid(0) && k > 0
    ensures x.id != c.uuid(k)
  {
    if x.id == c.uuid(k) {
      var b := x.(id := c.uuid(k));
      SameToken(a, x, b, b);
    }
  }

  lemma ServesTwo(c: Crypto, issue: Step, p: Place, q: Place, n: nat, m: nat) returns (more: seq<Step>)
    requires Sound(c) && issue.DoIssue? && n != m
    requires At(Head(FirstIssued(c, issue)), Marker(c, p), n) && At(Head(FirstIssued(c, issue)), Marker(c, q), m)
    ensures FairRun(c, Start(), [issue] + more)
    ensures var w, a := Run(c, Start(), [issue] + more), FirstIssued(c, issue);
            && a in w.issued && |w.breaker.audit| == 2 && Backs(a, w.breaker.audit[0]) && Backs(a, w.breaker.audit[1])
            && w.breaker.audit[0].place == p && w.breaker.audit[1].place == q
  {
    hide *;
    var a := FirstIssued(c, issue);
    FirstIssuedIs(c, issue);
    ReadingIsBallot(c, p, a, n);
    ReadingIsBallot(c, q, a, m);
    var x, y := Reading(c, p, a, n), Reading(c, q, a, m);
    MarkerIsReading(c, p, a, n);
    MarkerIsReading(c, q, a, m);
    var b, d := Partner(c, 1, p, x), Partner(c, 2, q, y);
    var w1, w2, w3 := IssuedWorld(c, {a}, 1), IssuedWorld(c, {a, b}, 2), IssuedWorld(c, {a, b, d}, 3);
    IssuedWorlds(c, issue, p, x, q, y);
    PartnerIsBallot(c, 1, p, x);
    PartnerIsBallot(c, 2, q, y);
    BallotReads(c, p, a, x, a.expiresAt);
    BallotReads(c, q, a, y, a.expiresAt);
    ReadingIdIsOwn(c, p, a, x, 2);
    ReadingIdIsOwn(c, q, a, y, 1);
    UuidsDiffer(c, 1, 2);
    BallotsResume(c, w3, p, a, b, x, b);
    ResumedIs(w3.breaker, p, x, b);
    var w4 := w3.(breaker := Resumed(w3.breaker, p, [x, b]));
    BallotsResume(c, w4, q, a, d, y, d);
    ResumedIs(w4.breaker, q, y, d);
    var last := [ResumeWith(q, y, d)] + [];
    var resumes := [ResumeWith(p, x, b)] + last;
    var rest := [PartnerIssue(q, y)] + resumes;
    more := [PartnerIssue(p, x)] + rest;
    var w5 := w4.(breaker := Resumed(w4.breaker, q, [y, d]));
    Unroll(c, Start(), issue, more);
    Unroll(c, w1, PartnerIssue(p, x), rest);
    Unroll(c, w2, PartnerIssue(q, y), resumes);
    Unroll(c, w3, ResumeWith(p, x, b), last);
    Unroll(c, w4, ResumeWith(q, y, d), []);
    Ends(c, w5);
    ListedBacks(c, p, a, x, w5.breaker.audit[0], 0);
    ListedBacks(c, q, a, y, w5.breaker.audit[1], 0);
  }

  lemma BallotReads(c: Crypto, p: Place, a: Approval, x: Approval, now: real)
    requires Ballot(c, p, a, x, now)
    ensures Reads(c, p, a, x) && x.expiresAt == now
  {}

  lemma UuidsDiffer(c: Crypto, j: nat, k: nat)
    requires Sound(c) && j != k
    ensures c.uuid(j) != c.uuid(k)
  {}

  lemma ListedBacks(c: Crypto, p: Place, a: Approval, x: Approval, row: Row, i: nat)
    requires Reads(c, p, a, x) && row.resume && i < |row.approvals| && row.approvals[i] == x
    ensures Backs(a, row)
  {}

  lemma FirstIssuedIs(c: Crypto, issue: Step)
    requires issue.DoIssue?
    ensures var a := FirstIssued(c, issue); a.id == c.uuid(0) && a.signature == c.mac(Canonical(a))
  {
    IssuedIsSigned(c, 0, issue.tenant, issue.action, issue.target, issue.payload, issue.approver, issue.expiresAt);
  }

  // Nothing has happened but issues.
  function IssuedWorld(c: Crypto, issued: set<Approval>, n: nat): World { World(Breaker(map[], [], {}), issued, n) }

  lemma IssuedWorlds(c: Crypto, issue: Step, p: Place, x: Approval, q: Place, y: Approval)
    requires issue.DoIssue?
    ensures var a, b, d := FirstIssued(c, issue), Partner(c, 1, p, x), Partner(c, 2, q, y);
            var w1, w2, w3 := IssuedWorld(c, {a}, 1), IssuedWorld(c, {a, b}, 2), IssuedWorld(c, {a, b, d}, 3);
            && Fair(c, Start(), issue) && Next(c, Start(), issue) == w1
            && Fair(c, w1, PartnerIssue(p, x)) && Next(c, w1, PartnerIssue(p, x)) == w2
            && Fair(c, w2, PartnerIssue(q, y)) && Next(c, w2, PartnerIssue(q, y)) == w3
            && w3.breaker.consumed == {} && w3.breaker.audit == [] && w3.issued == {a, b, d}
  {
    hide Issued;
  }

  // ---------- one approval alone ----------

  // With one approval issued, the breaker can be resumed, for some place, exactly when the marker of
  // a place occurs twice in its signed text.
  lemma ResumesAloneIff(c: Crypto, issue: Step)
    requires Sound(c) && issue.DoIssue?
    ensures (exists p, s, now :: var w := Next(c, Start(), issue);
               Unforged(c, w, s) && MayResume(c, w.breaker, p, Approvers(s), s, now))
            <==> exists p :: TwoVotes(c, FirstIssued(c, issue), p)
  {
    hide Sound, Next, MayResume, Unforged, TwoVotes, Vote, FirstIssued;
    var w, a := Next(c, Start(), issue), FirstIssued(c, issue);
    if p, s, now :| Unforged(c, w, s) && MayResume(c, w.breaker, p, Approvers(s), s, now) {
      AloneNeedsTwo(c, issue, p, s, now);
    }
    if p :| TwoVotes(c, a, p) {
      var s := AloneVotes(c, issue, p);
    }
  }

  lemma AloneNeedsTwo(c: Crypto, issue: Step, p: Place, s: seq<Approval>, now: real)
    requires issue.DoIssue?
    requires var w := Next(c, Start(), issue); Unforged(c, w, s) && MayResume(c, w.breaker, p, Approvers(s), s, now)
    ensures TwoVotes(c, FirstIssued(c, issue), p)
  {
    hide Next, MayResume, Unforged, TwoVotes, FirstIssued, Reads, Vote, IssuedWorld;
    var w := Next(c, Start(), issue);
    OnlyVoter(c, issue);
    ResumeRestsOnTwo(c, w, p, Approvers(s), s, now);
    var b, d, x, y :| Vote(c, w, p, now, b, x) && Vote(c, w, p, now, d, y) && x.approver != y.approver && (b == d ==> TwoVotes(c, b, p));
    SoleVoter(c, FirstIssued(c, issue), p, now, b, x);
    SoleVoter(c, FirstIssued(c, issue), p, now, d, y);
  }

  lemma SoleVoter(c: Crypto, a: Approval, p: Place, now: real, b: Approval, x: Approval)
    requires Vote(c, IssuedWorld(c, {a}, 1), p, now, b, x)
    ensures b == a
  {
    hide Reads;
  }

  lemma OnlyVoter(c: Crypto, issue: Step)
    requires issue.DoIssue?
    ensures Next(c, Start(), issue) == IssuedWorld(c, {FirstIssued(c, issue)}, 1)
  {
    hide Issued;
  }

  lemma AloneVotes(c: Crypto, issue: Step, p: Place) returns (s: seq<Approval>)
    requires Sound(c) && issue.DoIssue? && TwoVotes(c, FirstIssued(c, issue), p)
    ensures var w := Next(c, Start(), issue);
            |s| == 2 && Unforged(c, w, s) && MayResume(c, w.breaker, p, Approvers(s), s, FirstIssued(c, issue).expiresAt)
    ensures var w := Next(c, Start(), issue);
            Fair(c, w, ResumeWith(p, s[0], s[1])) && Next(c, w, ResumeWith(p, s[0], s[1])).issued == {FirstIssued(c, issue)}
            && Resumes(Next(c, w, ResumeWith(p, s[0], s[1])).breaker.audit) == 1
  {
    hide Sound, Head, Marker, Canonical, Next, At, Issued;
    var a := FirstIssued(c, issue);
    OnlyVoter(c, issue);
    FirstIssuedIs(c, issue);
    var n, m :| n < m && At(Head(a), Marker(c, p), n) && At(Head(a), Marker(c, p), m);
    ReadingIsBallot(c, p, a, n);
    ReadingIsBallot(c, p, a, m);
    ReadingsDiffer(c, p, a, n, m);
    var x, y := Reading(c, p, a, n), Reading(c, p, a, m);
    s := [x, y];
    var w := IssuedWorld(c, {a}, 1);
    BallotsCount(c, w, p, a, x, y);
    BallotsResume(c, w, p, a, a, x, y);
    ResumedIs(w.breaker, p, x, y);
    OneRow(w.breaker, Resumed(w.breaker, p, [x, y]));
  }

  lemma OneRow(b: Breaker, b': Breaker)
    requires b.audit == [] && |b'.audit| == 1 && b'.audit[0].resume
    ensures Resumes(b'.audit) == 1
  {
    assert b'.audit[..0] == [];
  }

  lemma BallotsCount(c: Crypto, w: World, p: Place, a: Approval, x: Approval, y: Approval)
    requires a in w.issued && Ballot(c, p, a, x, a.expiresAt) && Ballot(c, p, a, y, a.expiresAt) && x.approver != y.approver
    requires w.breaker.consumed == {}
    ensures Unforged(c, w, [x, y]) && MayResume(c, w.breaker, p, Approvers([x, y]), [x, y], a.expiresAt)
  {
    hide Canonical;
    assert Approvers([x, y]) == [x.approver, y.approver];
    assert ToSet([x.approver, y.approver]) == {x.approver, y.approver};
  }

  // ---------- two approvals of two people per resume ----------

  // Issued approvals whose text was used in a resume.
  ghost function Backers(issued: set<Approval>, audit: seq<Row>): set<Approval> {
    set a | a in issued && exists i :: 0 <= i < |audit| && Backs(a, audit[i])
  }

  lemma SourceOf(c: Crypto, issued: set<Approval>, row: Row, k: nat) returns (a: Approval)
    requires WellRead(c, issued, row) && row.resume && k < |row.approvals|
    ensures a in issued && Reads(c, row.place, a, row.approvals[k])
  {
    assert FromIssued(c, issued, row.place, row.approvals[k]);
    a :| a in issued && Reads(c, row.place, a, row.approvals[k]);
  }

  lemma RowHasTwo(c: Crypto, issued: set<Approval>, row: Row) returns (a: Approval, b: Approval)
    requires WellRead(c, issued, row) && row.resume && forall x :: x in issued ==> OneMarker(c, x)
    ensures a in issued && b in issued && a != b && Backs(a, row) && Backs(b, row)
  {
    hide Canonical, OneMarker;
    a := SourceOf(c, issued, row, 0);
    b := SourceOf(c, issued, row, 1);
    assert row.approvals[0].approver != row.approvals[1].approver;
    if a == b {
      DifferentVotes(c, row.place, a, row.approvals[0], row.approvals[1]);
      OneMarkerOneVote(c, a, row.place);
    }
  }

  lemma {:induction false} BackersCount(c: Crypto, issued: set<Approval>, audit: seq<Row>)
    requires forall i :: 0 <= i < |audit| ==> WellRead(c, issued, audit[i])
    requires forall a :: a in issued ==> OneMarker(c, a) && ServesOnce(a, audit)
    ensures 2 * Resumes(audit) <= |Backers(issued, audit)|
    decreases |audit|
  {
    hide WellRead, Backs, OneMarker, Backers, ServesOnce;
    if audit != [] {
      var n := |audit| - 1;
      var front, row := audit[..n], audit[n];
      forall a | a in issued ensures ServesOnce(a, front) { ServesOncePrefix(a, audit); }
      BackersCount(c, issued, front);
      if row.resume {
        var a, b := RowHasTwo(c, issued, row);
        BackersAdd(issued, audit, a, b);
        FewerOrEqual(Backers(issued, front) + {a, b}, Backers(issued, audit));
      } else {
        BackersGrow(issued, audit);
        FewerOrEqual(Backers(issued, front), Backers(issued, audit));
      }
    }
  }

  lemma ServesOncePrefix(a: Approval, audit: seq<Row>)
    requires audit != [] && ServesOnce(a, audit)
    ensures ServesOnce(a, audit[..|audit| - 1])
  {
    hide Backs;
  }

  lemma BackersGrow(issued: set<Approval>, audit: seq<Row>)
    requires audit != []
    ensures Backers(issued, audit[..|audit| - 1]) <= Backers(issued, audit)
  {
    hide Backs;
  }

  // The approvals behind the last resume backed none before.
  lemma BackersAdd(issued: set<Approval>, audit: seq<Row>, a: Approval, b: Approval)
    requires audit != [] && a in issued && b in issued && Backs(a, audit[|audit| - 1]) && Backs(b, audit[|audit| - 1])
    requires ServesOnce(a, audit) && ServesOnce(b, audit)
    ensures var old_ := Backers(issued, audit[..|audit| - 1]);
            a !in old_ && b !in old_ && old_ + {a, b} <= Backers(issued, audit)
  {
    BackersGrow(issued, audit);
    hide Backs;
  }

  lemma {:induction false} FewerOrEqual(x: set<Approval>, y: set<Approval>)
    requires x <= y
    ensures |x| <= |y|
    decreases x
  {
    if x != {} {
      var e :| e in x;
      FewerOrEqual(x - {e}, y - {e});
    }
  }

  // In every run whose issued approvals have their markers at one position, each resume is backed by two
  // issued approvals of its own, so there are at least twice as many approvals as resumes.
  lemma TwoApprovalsPerResume(c: Crypto, steps: seq<Step>)
    requires Sound(c) && FairRun(c, Start(), steps)
    requires forall a :: a in Run(c, Start(), steps).issued ==> OneMarker(c, a)
    ensures var w := Run(c, Start(), steps);
            && 2 * Resumes(w.breaker.audit) <= |w.issued|
            && (forall i :: 0 <= i < |w.breaker.audit| && w.breaker.audit[i].resume ==>
                  exists a, b :: a in w.issued && b in w.issued && a != b && Backs(a, w.breaker.audit[i]) && Backs(b, w.breaker.audit[i]))
            && (forall a :: a in w.issued ==> ServesOnce(a, w.breaker.audit))
  {
    RunIsDisjoint(c, steps);
    hide Sound, FairRun, Run, OneMarker, ServesOnce, Backs, WellRead;
    var w := Run(c, Start(), steps);
    forall a | a in w.issued ensures ServesOnce(a, w.breaker.audit) { OneMarkerServesOnce(c, w, a); }
    BackersCount(c, w.issued, w.breaker.audit);
    FewerOrEqual(Backers(w.issued, w.breaker.audit), w.issued);
    forall i | 0 <= i < |w.breaker.audit| && w.breaker.audit[i].resume
      ensures exists a, b :: a in w.issued && b in w.issued && a != b && Backs(a, w.breaker.audit[i]) && Backs(b, w.breaker.audit[i])
    {
      var a, b := RowHasTwo(c, w.issued, w.breaker.audit[i]);
    }
  }

  // ---------- the failing inputs ----------

  // An approver's name that holds a marker: the one approval is read as two, of "x..." and of "y".
  function LoneIssue(c: Crypto, now: real): Step {
    DoIssue("n", Resumption, "o", PayloadOf("o"), "x" + Marker(c, Place("n", "o")) + "y", now)
  }

  lemma LoneMarkers(c: Crypto, now: real)
    ensures TwoVotes(c, FirstIssued(c, LoneIssue(c, now)), Place("n", "o"))
  {
    var p, a := Place("n", "o"), FirstIssued(c, LoneIssue(c, now));
    HeadIs(c, p, a);
    hide Head, Marker, PayloadOf, Issued, At;
    MarkerTwice(a.id, Marker(c, p));
  }

  lemma MarkerTwice(id: string, m: string)
    ensures var h := id + m + ("x" + m + "y"); At(h, m, |id|) && At(h, m, |id| + |m| + 1)
  {
    Inside(id, m, "x" + m + "y");
    Inside(id + m + "x", m, "y");
    assert id + m + ("x" + m + "y") == (id + m + "x") + m + "y";
    assert |id + m + "x"| == |id| + |m| + 1;
    hide At;
  }

  // One issued approval resumes an organisation alone: the two-person rule fails for such a name.
  lemma OneApprovalResumes(c: Crypto, now: real) returns (steps: seq<Step>)
    requires Sound(c)
    ensures FairRun(c, Start(), steps)
    ensures var w := Run(c, Start(), steps); |w.issued| == 1 && Resumes(w.breaker.audit) == 1
  {
    var issue := LoneIssue(c, now);
    LoneMarkers(c, now);
    hide TwoVotes, Next, Sound, FirstIssued;
    var s := AloneVotes(c, issue, Place("n", "o"));
    var w := Next(c, Start(), issue);
    var resume := ResumeWith(Place("n", "o"), s[0], s[1]);
    steps := [issue] + ([resume] + []);
    Unroll(c, Start(), issue, [resume] + []);
    Unroll(c, w, resume, []);
    Ends(c, Next(c, w, resume));
    IssueIsFair(c, issue);
    hide Fair, Run, FairRun;
  }

  lemma IssueIsFair(c: Crypto, issue: Step)
    requires issue.DoIssue?
    ensures Fair(c, Start(), issue)
  {}

  // A tenant name that holds the separator: the one approval serves a resume of "n:s" and one of "s".
  function SharedIssue(now: real): Step { DoIssue("n:s", Resumption, "o", PayloadOf("o"), "ann", now) }

  lemma SharedMarkers(c: Crypto, now: real)
    ensures var a := FirstIssued(c, SharedIssue(now));
            At(Head(a), Marker(c, Place("n:s", "o")), |a.id|) && At(Head(a), Marker(c, Place("s", "o")), |a.id| + 2)
  {
    var a := FirstIssued(c, SharedIssue(now));
    var p, q := Place("n:s", "o"), Place("s", "o");
    HeadIs(c, p, a);
    hide Head, PayloadOf, Issued;
    MarkersNest(c);
    hide Marker;
    InnerMarker(a.id, Marker(c, q), a.approver);
  }

  lemma MarkersNest(c: Crypto)
    ensures Marker(c, Place("n:s", "o")) == ":n" + Marker(c, Place("s", "o"))
  {
    hide PayloadOf;
    var rest := Resumption + [':'] + ("o" + [':'] + (c.hash(PayloadOf("o")) + [':']));
    assert [':'] + ("n:s" + [':'] + rest) == ":n" + ([':'] + ("s" + [':'] + rest));
  }

  lemma InnerMarker(id: string, m: string, approver: string)
    ensures var h := id + (":n" + m) + approver; At(h, ":n" + m, |id|) && At(h, m, |id| + 2)
  {
    Inside(id, ":n" + m, approver);
    Inside(id + ":n", m, approver);
    assert id + (":n" + m) + approver == (id + ":n") + m + approver;
  }

  lemma AmbiguousServesTwice(c: Crypto, now: real) returns (more: seq<Step>)
    requires Sound(c)
    ensures FairRun(c, Start(), [SharedIssue(now)] + more)
    ensures var w, a := Run(c, Start(), [SharedIssue(now)] + more), FirstIssued(c, SharedIssue(now));
            && a in w.issued && |w.breaker.audit| == 2 && Backs(a, w.breaker.audit[0]) && Backs(a, w.breaker.audit[1])
            && w.breaker.audit[0].place != w.breaker.audit[1].place
  {
    SharedMarkers(c, now);
    assert Place("n:s", "o") != Place("s", "o") by { assert |"n:s"| != |"s"|; }
    var n := |FirstIssued(c, SharedIssue(now)).id|;
    hide At, Head, Marker, Sound, FairRun, Run, Backs, FirstIssued;
    more := ServesTwo(c, SharedIssue(now), Place("n:s", "o"), Place("s", "o"), n, n + 2);
  }
}
