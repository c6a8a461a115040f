// What pausing and resuming do, told on the fields of the approvals presented and on the rows, the audit trail
// and the consumed ids.
module QuorumResults {
  import opened Quorum
  import opened Ledger

  // A live vote to resume this place: addressed to it, for this payload, tagged, not expired and not used.
  predicate LiveVote(c: Crypto, consumed: set<string>, p: Place, a: Approval, now: real) {
    && a.tenant == p.tenant && a.action == "CIRCUIT_BREAKER_RESUME" && a.target == p.org
    && a.payloadHash == c.hash("{\"organisation_id\": \"" + p.org + "\"}")
    && now <= a.expiresAt
    && a.signature == c.mac(Canonical(a))
    && a.id !in consumed
  }

  lemma LiveIsVerified(c: Crypto, consumed: set<string>, p: Place, a: Approval, now: real)
    ensures LiveVote(c, consumed, p, a, now) <==> VerifySingle(c, consumed, a, ResumeExpectation(p, now)) == None
  {
    hide Canonical;
  }

  // An approval that is not accepted is refused for its first fault, whatever it is checked against.
  lemma FirstFault(c: Crypto, consumed: set<string>, a: Approval, x: Expectation)
    ensures var f := VerifySingle(c, consumed, a, x);
            && (f == Some(Fault.Tenant) <==> a.tenant != x.tenant)
            && (f == Some(Fault.Action) ==> a.tenant == x.tenant && a.action != x.action)
            && (f == Some(Fault.Target) ==> a.target != x.target)
            && (f == Some(Expired) ==> x.now > a.expiresAt)
            && (f == Some(PayloadMismatch) ==> a.payloadHash != c.hash(x.payload))
            && (f == Some(BadSignature) ==> a.signature != c.mac(Canonical(a)))
            && (f == Some(Consumed) <==>
                  && a.tenant == x.tenant && a.action == x.action && a.target == x.target && x.now <= a.expiresAt
                  && a.payloadHash == c.hash(x.payload) && a.signature == c.mac(Canonical(a)) && a.id in consumed)
  {
    hide Canonical;
  }

  // The check on the set of names adds nothing: two approvals by different people already name two.
  lemma TwoNames(s: seq<Approval>)
    requires |s| >= 2 && DistinctApprovers(s)
    ensures |ToSet(Approvers(s))| >= 2
  {
    var names := ToSet(Approvers(s));
    assert Approvers(s)[0] in names && Approvers(s)[1] in names;
    assert {Approvers(s)[0], Approvers(s)[1]} <= names;
    SubsetSize({Approvers(s)[0], Approvers(s)[1]}, names);
  }

  // Exactly when a place may be resumed: two or more live votes by pairwise different people, listed by name
  // in the same order.
  lemma MayResumeIff(c: Crypto, b: Breaker, p: Place, approvers: seq<string>, s: seq<Approval>, now: real)
    ensures MayResume(c, b, p, approvers, s, now) <==>
              && |s| >= 2 && |approvers| == |s|
              && (forall i :: 0 <= i < |s| ==> approvers[i] == s[i].approver && LiveVote(c, b.consumed, p, s[i], now))
              && (forall i, j :: 0 <= i < j < |s| ==> s[i].approver != s[j].approver)
  {
    hide Canonical;
    forall i | 0 <= i < |s|
      ensures LiveVote(c, b.consumed, p, s[i], now) <==> VerifySingle(c, b.consumed, s[i], ResumeExpectation(p, now)) == None
    {
      LiveIsVerified(c, b.consumed, p, s[i], now);
    }
    assert Approvers(s) == approvers <==> |approvers| == |s| && forall i :: 0 <= i < |s| ==> approvers[i] == s[i].approver;
    hide LiveVote, VerifySingle, ToSet, Approvers;
    if |s| >= 2 && DistinctApprovers(s) { TwoNames(s); }
  }

  // Only this place changes state.
  ghost predicate OnlyPlace(b: Breaker, b': Breaker, p: Place, state: State) {
    StateAt(b', p) == state && forall q :: q != p ==> StateAt(b', q) == StateAt(b, q)
  }

  lemma PauseAs(b: Breaker, p: Place)
    ensures var b' := Pause(b, p);
            && OnlyPlace(b, b', p, Paused) && b'.consumed == b.consumed
            && |b'.audit| == |b.audit| + 1 && b'.audit[..|b.audit|] == b.audit
            && b'.audit[|b.audit|] == Row(p, false, StateAt(b, p), Paused, [])
  {
    assert Pause(b, p).audit[..|b.audit|] == b.audit;
  }

  // A resume that goes through returns the place to normal, uses up every id presented, and leaves one row; a
  // process that dies in between has used up the ids; any other resume changes nothing.
  lemma ResumeAs(c: Crypto, w: World, p: Place, approvers: seq<string>, s: seq<Approval>, now: real, crash: bool)
    ensures var b, w' := w.breaker, Next(c, w, DoResume(p, approvers, s, now, crash)); var b' := w'.breaker;
            && w'.issued == w.issued && w'.next == w.next
            && if !MayResume(c, b, p, approvers, s, now) then b' == b
               else
                 && (forall x :: x in b'.consumed <==> x in b.consumed || exists i :: 0 <= i < |s| && s[i].id == x)
                 && if crash then b'.rows == b.rows && b'.audit == b.audit
                    else
                      && OnlyPlace(b, b', p, Normal)
                      && |b'.audit| == |b.audit| + 1 && b'.audit[..|b.audit|] == b.audit
                      && b'.audit[|b.audit|] == Row(p, true, StateAt(b, p), Normal, s)
  {
    hide MayResume;
    assert Resumed(w.breaker, p, s).audit[..|w.breaker.audit|] == w.breaker.audit;
    assert forall x :: x in Ids(s) <==> exists i :: 0 <= i < |s| && s[i].id == x;
  }

  // The vote of one person to resume a place, as issued.
  function VoteBy(c: Crypto, id: string, p: Place, person: string, expiresAt: real): Approval {
    Issued(c, id, p.tenant, "CIRCUIT_BREAKER_RESUME", p.org, PayloadOf(p.org), person, expiresAt)
  }

  lemma VoteIsLive(c: Crypto, id: string, consumed: set<string>, p: Place, person: string, expiresAt: real, now: real)
    ensures LiveVote(c, consumed, p, VoteBy(c, id, p, person, expiresAt), now) <==> now <= expiresAt && id !in consumed
  {
    var a := VoteBy(c, id, p, person, expiresAt);
    assert Canonical(a) == Canonical(a.(signature := ""));
    hide Canonical;
  }

  // Two votes just issued resume their place exactly when they are of two people, both unexpired, and under
  // ids nobody has used up.
  lemma TwoPeopleResume(c: Crypto, b: Breaker, p: Place, n: nat, ann: string, bob: string, t: real, u: real, now: real)
    ensures var x, y := VoteBy(c, c.uuid(n), p, ann, t), VoteBy(c, c.uuid(n + 1), p, bob, u);
            MayResume(c, b, p, [ann, bob], [x, y], now) <==>
              ann != bob && now <= t && now <= u && c.uuid(n) !in b.consumed && c.uuid(n + 1) !in b.consumed
  {
    var x, y := VoteBy(c, c.uuid(n), p, ann, t), VoteBy(c, c.uuid(n + 1), p, bob, u);
    VoteIsLive(c, c.uuid(n), b.consumed, p, ann, t, now);
    VoteIsLive(c, c.uuid(n + 1), b.consumed, p, bob, u, now);
    MayResumeIff(c, b, p, [ann, bob], [x, y], now);
    assert x.approver == ann && y.approver == bob;
    assert [x, y][0] == x && [x, y][1] == y;
    hide MayResume, LiveVote, VoteBy;
  }
}
