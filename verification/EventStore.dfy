// The append-only event store: each event's hash covers its fields and the previous event's hash.
module EventStore {
  import opened Text
  import opened Ledger

  type Payload = map<string, string>

  datatype Event = Event(sequence: nat, time: int, actor: string, kind: string, entity: string, payload: Payload,
                         payloadHash: string, previous: string, hash: string)

  // What the caller of an append, and the clock, supply.
  datatype Draft = Draft(time: int, actor: string, kind: string, entity: string, payload: Payload)

  // SHA-256 as hexadecimal text, canonical JSON, ISO timestamps.
  datatype Hashing = Hashing(sha: string -> string, canon: Payload -> string, iso: int -> string)

  ghost predicate Sound(h: Hashing) {
    && (forall x, y :: h.sha(x) == h.sha(y) ==> x == y)
    && (forall x :: Free(h.sha(x), '|'))
    && (forall s, t :: h.iso(s) == h.iso(t) ==> s == t)
    && (forall t :: Free(h.iso(t), '|'))
  }

  function Genesis(): (r: string)
    ensures Free(r, '|')
  {
    seq(64, _ => '0')
  }

  function PayloadHash(h: Hashing, p: Payload): string { h.sha(h.canon(p)) }

  function Names(actor: string, kind: string, entity: string): string { actor + ['|'] + (kind + ['|'] + entity) }

  // sequence|timestamp|actor|type|entity|payload hash|previous hash
  function Serialized(h: Hashing, e: Event): string {
    Decimal(e.sequence) + ['|'] + (h.iso(e.time) + ['|'] +
      ((Names(e.actor, e.kind, e.entity) + ['|'] + e.payloadHash) + ['|'] + e.previous))
  }

  function EventHash(h: Hashing, e: Event): string { h.sha(Serialized(h, e)) }

  function Seal(h: Hashing, sequence: nat, d: Draft, previous: string): Event {
    var e := Event(sequence, d.time, d.actor, d.kind, d.entity, d.payload, PayloadHash(h, d.payload), previous, "");
    e.(hash := EventHash(h, e))
  }

  function Head(events: seq<Event>): string {
    if events == [] then Genesis() else events[|events| - 1].hash
  }

  function Append(h: Hashing, events: seq<Event>, d: Draft): seq<Event> {
    events + [Seal(h, |events| + 1, d, Head(events))]
  }

  function AppendAll(h: Hashing, events: seq<Event>, drafts: seq<Draft>): seq<Event>
    decreases |drafts|
  {
    if drafts == [] then events else AppendAll(h, Append(h, events, drafts[0]), drafts[1..])
  }

  // ---------- acceptance ----------

  datatype Fault = SequenceMismatch(index: nat) | BrokenLink(index: nat) | PayloadCorrupted(index: nat) | HashMismatch(index: nat)

  function FaultAt(h: Hashing, events: seq<Event>, i: nat): Option<Fault>
    requires i < |events|
  {
    var e := events[i];
    if e.sequence != i + 1 then Some(SequenceMismatch(i))
    else if e.previous != Head(events[..i]) then Some(BrokenLink(i))
    else if e.payloadHash != PayloadHash(h, e.payload) then Some(PayloadCorrupted(i))
    else if e.hash != EventHash(h, e) then Some(HashMismatch(i))
    else None
  }

  ghost predicate WellLinked(h: Hashing, events: seq<Event>) {
    forall i :: 0 <= i < |events| ==> FaultAt(h, events, i) == None
  }

  function DraftOf(e: Event): Draft { Draft(e.time, e.actor, e.kind, e.entity, e.payload) }

  function Drafts(events: seq<Event>): seq<Draft> {
    seq(|events|, i requires 0 <= i < |events| => DraftOf(events[i]))
  }

  lemma FaultAtPrefix(h: Hashing, events: seq<Event>, n: nat, i: nat)
    requires i < n <= |events|
    ensures FaultAt(h, events[..n], i) == FaultAt(h, events, i)
  {
    assert events[..n][..i] == events[..i];
  }

  lemma PrefixAccepted(h: Hashing, events: seq<Event>, n: nat)
    requires WellLinked(h, events) && n <= |events|
    ensures WellLinked(h, events[..n])
  {
    forall i | 0 <= i < n ensures FaultAt(h, events[..n], i) == None {
      FaultAtPrefix(h, events, n, i);
    }
  }

  lemma AppendAccepted(h: Hashing, events: seq<Event>, d: Draft)
    ensures WellLinked(h, Append(h, events, d)) <==> WellLinked(h, events)
  {
    var longer := Append(h, events, d);
    var n := |events|;
    assert longer[..n] == events;
    forall i | 0 <= i < n ensures FaultAt(h, longer, i) == FaultAt(h, events, i) {
      FaultAtPrefix(h, longer, n, i);
    }
    SealSerialized(h, n + 1, d, Head(events));
    assert FaultAt(h, longer, n) == None;
    if WellLinked(h, longer) { PrefixAccepted(h, longer, n); }
    if WellLinked(h, events) {
      forall i | 0 <= i < n + 1 ensures FaultAt(h, longer, i) == None {}
    }
  }

  // What an append adds: the draft's fields under the next number, linked to the last hash or to sixty-four
  // zeros, and hashed over the seven fields joined in this order.
  lemma AppendAs(h: Hashing, events: seq<Event>, d: Draft)
    ensures var longer := Append(h, events, d); var n := |events|;
            && |longer| == n + 1 && longer[..n] == events
            && var e := longer[n];
               && e.sequence == n + 1 && e.time == d.time && e.actor == d.actor && e.kind == d.kind && e.entity == d.entity
               && e.payload == d.payload && e.payloadHash == h.sha(h.canon(d.payload))
               && (n > 0 ==> e.previous == events[n - 1].hash)
               && (n == 0 ==> |e.previous| == 64 && forall k :: 0 <= k < 64 ==> e.previous[k] == '0')
               && e.hash == h.sha(Joined([Decimal(n + 1), h.iso(d.time), d.actor, d.kind, d.entity, e.payloadHash, e.previous]))
  {
    var e := Append(h, events, d)[|events|];
    assert Serialized(h, e) == Serialized(h, e.(hash := ""));
    JoinedIs(h, e);
    hide Serialized;
  }

  // Parts with the delimiter between them.
  function Joined(parts: seq<string>): string {
    if parts == [] then [] else if |parts| == 1 then parts[0] else parts[0] + ['|'] + Joined(parts[1..])
  }

  lemma JoinedIs(h: Hashing, e: Event)
    ensures Serialized(h, e) == Joined([Decimal(e.sequence), h.iso(e.time), e.actor, e.kind, e.entity, e.payloadHash, e.previous])
  {
    var s := [e.payloadHash, e.previous];
    assert s[1..] == [e.previous] && Joined(s) == e.payloadHash + ['|'] + e.previous;
    JoinFirst(e.entity, s);
    JoinFirst(e.kind, [e.entity] + s);
    JoinFirst(e.actor, [e.kind] + ([e.entity] + s));
    JoinFirst(h.iso(e.time), [e.actor] + ([e.kind] + ([e.entity] + s)));
    JoinFirst(Decimal(e.sequence), [h.iso(e.time)] + ([e.actor] + ([e.kind] + ([e.entity] + s))));
    assert [Decimal(e.sequence), h.iso(e.time), e.actor, e.kind, e.entity, e.payloadHash, e.previous]
        == [Decimal(e.sequence)] + ([h.iso(e.time)] + ([e.actor] + ([e.kind] + ([e.entity] + s))));
    hide Joined, Decimal;
    Regroup(e.actor, e.kind, e.entity, e.payloadHash, e.previous);
  }

  lemma JoinFirst(part: string, rest: seq<string>)
    requires rest != []
    ensures Joined([part] + rest) == part + ['|'] + Joined(rest)
  {
    assert ([part] + rest)[1..] == rest;
  }

  lemma Regroup(a: string, k: string, e: string, p: string, q: string)
    ensures (Names(a, k, e) + ['|'] + p) + ['|'] + q == a + ['|'] + (k + ['|'] + (e + ['|'] + (p + ['|'] + q)))
  {}

  // Which fault is reported for an event: the first of number, link, payload hash and event hash that is wrong.
  lemma FaultMeans(h: Hashing, events: seq<Event>, i: nat)
    requires i < |events|
    ensures var e, f := events[i], FaultAt(h, events, i); var before := if i > 0 then events[i - 1].hash else Genesis();
            && (f == Some(SequenceMismatch(i)) <==> e.sequence != i + 1)
            && (f == Some(BrokenLink(i)) <==> e.sequence == i + 1 && e.previous != before)
            && (f == Some(PayloadCorrupted(i)) <==>
                  e.sequence == i + 1 && e.previous == before && e.payloadHash != PayloadHash(h, e.payload))
            && (f == Some(HashMismatch(i)) <==>
                  && e.sequence == i + 1 && e.previous == before && e.payloadHash == PayloadHash(h, e.payload)
                  && e.hash != EventHash(h, e))
  {
    assert Head(events[..i]) == if i > 0 then events[i - 1].hash else Genesis();
    hide Serialized;
  }

  lemma SealSerialized(h: Hashing, sequence: nat, d: Draft, previous: string)
    ensures var e := Seal(h, sequence, d, previous); e.hash == EventHash(h, e)
  {}

  lemma {:induction false} AppendAllLast(h: Hashing, events: seq<Event>, drafts: seq<Draft>, d: Draft)
    ensures AppendAll(h, events, drafts + [d]) == Append(h, AppendAll(h, events, drafts), d)
    decreases |drafts|
  {
    hide Append;
    if drafts == [] {
      assert drafts + [d] == [d] && [d][1..] == [];
    } else {
      assert (drafts + [d])[1..] == drafts[1..] + [d];
      AppendAllLast(h, Append(h, events, drafts[0]), drafts[1..], d);
    }
  }

  // The accepted chains are exactly those that appending their own contents to an empty store yields.
  lemma {:induction false} AcceptedIffRebuilt(h: Hashing, events: seq<Event>)
    ensures WellLinked(h, events) <==> events == AppendAll(h, [], Drafts(events))
    decreases |events|
  {
    if events != [] {
      var n := |events| - 1;
      var front, last := events[..n], events[n];
      AcceptedIffRebuilt(h, front);
      assert Drafts(events) == Drafts(front) + [DraftOf(last)];
      AppendAllLast(h, [], Drafts(front), DraftOf(last));
      AppendAllLength(h, [], Drafts(front));
      assert events == front + [last];
      if WellLinked(h, events) {
        PrefixAccepted(h, events, n);
        assert FaultAt(h, events, n) == None;
        SealedIs(h, last, n + 1, Head(front));
      }
      if events == AppendAll(h, [], Drafts(events)) {
        var shorter := AppendAll(h, [], Drafts(front));
        assert front == Append(h, shorter, DraftOf(last))[..n] == shorter;
        AppendAccepted(h, front, DraftOf(last));
      }
    }
  }

  // Every store ever grown by appending is accepted.
  lemma {:induction false} EveryStoreAccepted(h: Hashing, events: seq<Event>, drafts: seq<Draft>)
    requires WellLinked(h, events)
    ensures WellLinked(h, AppendAll(h, events, drafts)) && events <= AppendAll(h, events, drafts)
    decreases |drafts|
  {
    if drafts != [] {
      AppendAccepted(h, events, drafts[0]);
      EveryStoreAccepted(h, Append(h, events, drafts[0]), drafts[1..]);
    }
  }

  lemma SealedIs(h: Hashing, e: Event, sequence: nat, previous: string)
    requires e.sequence == sequence && e.previous == previous
    requires e.payloadHash == PayloadHash(h, e.payload) && e.hash == EventHash(h, e)
    ensures e == Seal(h, sequence, DraftOf(e), previous)
  {
    assert Serialized(h, e) == Serialized(h, e.(hash := ""));
  }

  lemma {:induction false} AppendAllLength(h: Hashing, events: seq<Event>, drafts: seq<Draft>)
    ensures |AppendAll(h, events, drafts)| == |events| + |drafts|
    decreases |drafts|
  {
    hide Seal;
    if drafts != [] { AppendAllLength(h, Append(h, events, drafts[0]), drafts[1..]); }
  }

  // ---------- the head hash commits to the whole history ----------

  // Equal in every hashed field; payloads equal as canonical text. The three names are one joined
  // text, which determines them when the first two hold no delimiter.
  ghost predicate SameJoined(h: Hashing, a: Event, b: Event) {
    && a.sequence == b.sequence && a.time == b.time && h.canon(a.payload) == h.canon(b.payload)
    && Names(a.actor, a.kind, a.entity) == Names(b.actor, b.kind, b.entity)
    && a.payloadHash == b.payloadHash && a.previous == b.previous && a.hash == b.hash
  }

  ghost predicate Same(h: Hashing, a: Event, b: Event) {
    SameJoined(h, a, b) && a.actor == b.actor && a.kind == b.kind && a.entity == b.entity
  }

  lemma SerializedDetermines(h: Hashing, a: Event, b: Event)
    requires Sound(h) && Serialized(h, a) == Serialized(h, b)
    requires Free(a.payloadHash, '|') && Free(b.payloadHash, '|') && Free(a.previous, '|') && Free(b.previous, '|')
    ensures a.sequence == b.sequence && a.time == b.time && a.payloadHash == b.payloadHash && a.previous == b.previous
    ensures Names(a.actor, a.kind, a.entity) == Names(b.actor, b.kind, b.entity)
  {
    var am, bm := Names(a.actor, a.kind, a.entity), Names(b.actor, b.kind, b.entity);
    hide Names;
    DecimalFree(a.sequence, '|');
    DecimalFree(b.sequence, '|');
    var a2, b2 := (am + ['|'] + a.payloadHash) + ['|'] + a.previous, (bm + ['|'] + b.payloadHash) + ['|'] + b.previous;
    SplitFirst('|', Decimal(a.sequence), h.iso(a.time) + ['|'] + a2, Decimal(b.sequence), h.iso(b.time) + ['|'] + b2);
    DecimalInjective(a.sequence, b.sequence);
    SplitFirst('|', h.iso(a.time), a2, h.iso(b.time), b2);
    SplitLast('|', am + ['|'] + a.payloadHash, a.previous, bm + ['|'] + b.payloadHash, b.previous);
    SplitLast('|', am, a.payloadHash, bm, b.payloadHash);
  }

  predicate NamesFree(actor: string, kind: string, entity: string) {
    Free(actor, '|') && Free(kind, '|') && Free(entity, '|')
  }

  lemma NamesCount(actor: string, kind: string, entity: string)
    ensures Count(Names(actor, kind, entity), '|') == Count(actor, '|') + Count(kind, '|') + Count(entity, '|') + 2
  {
    CountJoin(kind, entity, '|');
    CountJoin(actor, kind + ['|'] + entity, '|');
  }

  // Delimiter-free names are the only ones with their joined text, whatever the others hold: the text
  // shows that none of its fields has a delimiter to spare.
  lemma NamesDetermine(actor: string, kind: string, entity: string, actor': string, kind': string, entity': string)
    requires Names(actor, kind, entity) == Names(actor', kind', entity') && NamesFree(actor, kind, entity)
    ensures actor == actor' && kind == kind' && entity == entity'
  {
    NamesCount(actor, kind, entity);
    NamesCount(actor', kind', entity');
    forall s ensures Free(s, '|') <==> Count(s, '|') == 0 { FreeIffCountZero(s, '|'); }
    SplitFirst('|', actor, kind + ['|'] + entity, actor', kind' + ['|'] + entity');
    SplitFirst('|', kind, entity, kind', entity');
  }

  // Names with a delimiter in one of them have a second reading.
  lemma OtherReading(actor: string, kind: string, entity: string) returns (a: string, k: string, e: string)
    requires !NamesFree(actor, kind, entity)
    ensures Names(a, k, e) == Names(actor, kind, entity) && (a != actor || k != kind || e != entity)
  {
    if !Free(actor, '|') {
      var u, v := CutAt(actor, '|');
      a, k, e := u, v + ['|'] + kind, entity;
    } else if !Free(kind, '|') {
      var u, v := CutAt(kind, '|');
      a, k, e := actor + ['|'] + u, v, entity;
    } else {
      var u, v := CutAt(entity, '|');
      a, k, e := actor, kind + ['|'] + u, v;
    }
  }

  // Exactly the delimiter-free names can be read back from their joined text.
  lemma NamesReadableIff(actor: string, kind: string, entity: string)
    ensures (forall a, k, e :: Names(a, k, e) == Names(actor, kind, entity) ==> a == actor && k == kind && e == entity)
            <==> NamesFree(actor, kind, entity)
  {
    if NamesFree(actor, kind, entity) {
      forall a, k, e | Names(a, k, e) == Names(actor, kind, entity) ensures a == actor && k == kind && e == entity {
        NamesDetermine(actor, kind, entity, a, k, e);
      }
    } else {
      var a, k, e := OtherReading(actor, kind, entity);
    }
  }

  lemma HeadFree(h: Hashing, events: seq<Event>)
    requires Sound(h) && WellLinked(h, events)
    ensures Free(Head(events), '|')
  {
    if events != [] { assert FaultAt(h, events, |events| - 1) == None; }
  }

  // The last events of two accepted chains with the same head hash agree, and so do the heads below.
  lemma LastAgrees(h: Hashing, x: seq<Event>, y: seq<Event>)
    requires Sound(h) && WellLinked(h, x) && WellLinked(h, y) && x != [] && y != [] && Head(x) == Head(y)
    ensures |x| == |y| && SameJoined(h, x[|x| - 1], y[|y| - 1]) && Head(x[..|x| - 1]) == Head(y[..|y| - 1])
  {
    var m, n := |x| - 1, |y| - 1;
    assert FaultAt(h, x, m) == None && FaultAt(h, y, n) == None;
    PrefixAccepted(h, x, m);
    PrefixAccepted(h, y, n);
    HeadFree(h, x[..m]);
    HeadFree(h, y[..n]);
    hide WellLinked, Serialized, Names;
    SerializedDetermines(h, x[m], y[n]);
  }

  lemma {:induction false} SameHeadSameHistory(h: Hashing, x: seq<Event>, y: seq<Event>)
    requires Sound(h) && WellLinked(h, x) && WellLinked(h, y) && x != [] && y != [] && Head(x) == Head(y)
    ensures |x| == |y| && forall i :: 0 <= i < |x| ==> SameJoined(h, x[i], y[i])
    decreases |x|
  {
    hide WellLinked, Sound, SameJoined;
    LastAgrees(h, x, y);
    var n := |x| - 1;
    if n > 0 {
      PrefixAccepted(h, x, n);
      PrefixAccepted(h, y, n);
      SameHeadSameHistory(h, x[..n], y[..n]);
      forall i | 0 <= i < |x| ensures SameJoined(h, x[i], y[i]) {
        if i < n { assert x[i] == x[..n][i] && y[i] == y[..n][i]; }
      }
    }
  }

  // No name in the chain holds the delimiter.
  ghost predicate Delimited(events: seq<Event>) {
    forall i :: 0 <= i < |events| ==> NamesFree(events[i].actor, events[i].kind, events[i].entity)
  }

  ghost predicate SameChain(h: Hashing, x: seq<Event>, y: seq<Event>) {
    |x| == |y| && forall i :: 0 <= i < |x| ==> Same(h, x[i], y[i])
  }

  // The holder of a delimiter-free chain knows every event of any accepted chain with its head hash.
  lemma SameHeadSameEvents(h: Hashing, x: seq<Event>, y: seq<Event>)
    requires Sound(h) && WellLinked(h, x) && WellLinked(h, y) && x != [] && y != [] && Head(x) == Head(y)
    requires Delimited(x)
    ensures SameChain(h, x, y)
  {
    hide WellLinked, Sound, Names;
    SameHeadSameHistory(h, x, y);
    forall i | 0 <= i < |x| ensures Same(h, x[i], y[i]) {
      NamesDetermine(x[i].actor, x[i].kind, x[i].entity, y[i].actor, y[i].kind, y[i].entity);
    }
  }

  // Renaming one event without changing the joined text leaves the chain accepted under its head.
  lemma RereadAccepted(h: Hashing, x: seq<Event>, i: nat, actor: string, kind: string, entity: string)
    requires WellLinked(h, x) && i < |x| && Names(actor, kind, entity) == Names(x[i].actor, x[i].kind, x[i].entity)
    ensures var y := x[i := x[i].(actor := actor, kind := kind, entity := entity)];
            WellLinked(h, y) && Head(y) == Head(x)
  {
    var y := x[i := x[i].(actor := actor, kind := kind, entity := entity)];
    forall k | 0 <= k < |y| ensures FaultAt(h, y, k) == None {
      assert FaultAt(h, x, k) == None;
      assert Head(y[..k]) == Head(x[..k]) by {
        if k > 0 { assert y[..k][k - 1] == y[k - 1] && x[..k][k - 1] == x[k - 1]; }
      }
    }
  }

  // An accepted chain is pinned down by its head hash exactly when no name in it holds the delimiter.
  lemma HeadPinsIff(h: Hashing, x: seq<Event>)
    requires Sound(h) && WellLinked(h, x) && x != []
    ensures (forall y :: WellLinked(h, y) && y != [] && Head(y) == Head(x) ==> SameChain(h, x, y)) <==> Delimited(x)
  {
    hide Sound;
    if Delimited(x) {
      forall y | WellLinked(h, y) && y != [] && Head(y) == Head(x) ensures SameChain(h, x, y) {
        SameHeadSameEvents(h, x, y);
      }
    } else {
      var i :| 0 <= i < |x| && !NamesFree(x[i].actor, x[i].kind, x[i].entity);
      var a, k, e := OtherReading(x[i].actor, x[i].kind, x[i].entity);
      RereadAccepted(h, x, i, a, k, e);
      hide WellLinked;
      var y := x[i := x[i].(actor := a, kind := k, entity := e)];
      assert !Same(h, x[i], y[i]);
    }
  }

  // The delimiter condition is needed: these two accepted one-event chains share a head hash.
  lemma DelimiterInFieldHidesChange(h: Hashing, time: int, payload: Payload)
    ensures var x := Append(h, [], Draft(time, "a|b", "c", "d", payload));
            var y := Append(h, [], Draft(time, "a", "b|c", "d", payload));
            && WellLinked(h, x) && WellLinked(h, y) && Head(x) == Head(y) && x[0].actor != y[0].actor
  {
    var dx, dy := Draft(time, "a|b", "c", "d", payload), Draft(time, "a", "b|c", "d", payload);
    AppendAccepted(h, [], dx);
    AppendAccepted(h, [], dy);
    assert Names("a|b", "c", "d") == "a|b|c|d" == Names("a", "b|c", "d");
  }

  // So, as a corollary: whatever replaces an accepted delimiter-free chain under its head hash, a change
  // in any hashed field, to any text, or in the number of events makes the check fail.
  lemma TamperingIsDetected(h: Hashing, x: seq<Event>, y: seq<Event>)
    requires Sound(h) && WellLinked(h, x) && x != [] && y != [] && Head(x) == Head(y)
    requires Delimited(x) && !SameChain(h, x, y)
    ensures !WellLinked(h, y)
  {
    hide Sound, Same;
    if WellLinked(h, y) { SameHeadSameEvents(h, x, y); }
  }

  // ---------- the object ----------

  class AppendOnlyEventStore {
    var events: seq<Event>

    constructor ()
      ensures events == []
    {
      events := [];
    }

    method AppendEvent(h: Hashing, d: Draft) returns (e: Event)
      modifies this
      ensures events == Append(h, old(events), d) && e == events[|events| - 1]
      ensures WellLinked(h, old(events)) ==> WellLinked(h, events)
    {
      var sequence := |events| + 1;
      var previous := if events != [] then events[|events| - 1].hash else Genesis();
      e := Event(sequence, d.time, d.actor, d.kind, d.entity, d.payload, PayloadHash(h, d.payload), previous, "");
      e := e.(hash := EventHash(h, e));
      AppendAccepted(h, events, d);
      events := events + [e];
    }

    // Reports the first fault, or accepts.
    method VerifyIntegrity(h: Hashing) returns (fault: Option<Fault>)
      ensures fault.None? <==> WellLinked(h, events)
      ensures fault.Some? ==>
                fault.value.index < |events| && FaultAt(h, events, fault.value.index) == fault &&
                WellLinked(h, events[..fault.value.index])
    {
      for i := 0 to |events|
        invariant forall k :: 0 <= k < i ==> FaultAt(h, events, k) == None
      {
        var e := events[i];
        var expected := if i > 0 then events[i - 1].hash else Genesis();
        assert expected == Head(events[..i]);
        fault := None;
        if e.sequence != i + 1 { fault := Some(SequenceMismatch(i)); }
        else if e.previous != expected { fault := Some(BrokenLink(i)); }
        else if e.payloadHash != PayloadHash(h, e.payload) { fault := Some(PayloadCorrupted(i)); }
        else if e.hash != EventHash(h, e) { fault := Some(HashMismatch(i)); }
        if fault.Some? {
          forall k | 0 <= k < i ensures FaultAt(h, events[..i], k) == None { FaultAtPrefix(h, events, i, k); }
          assert FaultAt(h, events, i) == fault;
          return;
        }
      }
      fault := None;
    }
  }
}
