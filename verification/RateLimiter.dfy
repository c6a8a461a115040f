// Sliding-window rate limiting: per key, the admission times of the last sixty seconds.
module RateLimiter {

  datatype Key = Key(mutation: bool, principal: string)

  datatype Limits = Limits(mutations: int, queries: int)

  function LimitOf(limits: Limits, k: Key): int { if k.mutation then limits.mutations else limits.queries }

  // `Broken`: the handler indexes an empty list, which a limit below one makes it do.
  datatype Reply = Admitted | Refused(retryAfter: int) | Broken

  function Evict(times: seq<real>, cutoff: real): seq<real> {
    if times != [] && times[0] < cutoff then Evict(times[1..], cutoff) else times
  }

  // Python's int(): truncation toward zero.
  function Truncate(x: real): int { if x >= 0.0 then x.Floor else -((-x).Floor) }

  function ReplyTo(kept: seq<real>, now: real, limit: int): Reply {
    if |kept| >= limit then
      (if kept == [] then Broken else Refused(Truncate(60.0 - (now - kept[0])) + 1))
    else Admitted
  }

  // `kept` is what the middleware holds for a key; `log` every admission there ever was.
  datatype Track = Track(kept: seq<real>, log: seq<real>)

  function Serve(t: Track, now: real, limit: int): Track {
    var kept := Evict(t.kept, now - 60.0);
    if ReplyTo(kept, now, limit).Admitted? then Track(kept + [now], t.log + [now]) else Track(kept, t.log)
  }

  function Answer(t: Track, now: real, limit: int): Reply { ReplyTo(Evict(t.kept, now - 60.0), now, limit) }

  // ---------- admissions in a window ----------

  function Within(log: seq<real>, lo: real, hi: real): nat {
    if log == [] then 0
    else Within(log[..|log| - 1], lo, hi) + (if lo <= log[|log| - 1] <= hi then 1 else 0)
  }

  ghost predicate Sorted(log: seq<real>) { forall i, j :: 0 <= i < j < |log| ==> log[i] <= log[j] }

  // Entries before index k lie outside: at most the rest is counted.
  lemma {:induction false} WithinTail(log: seq<real>, lo: real, hi: real, k: nat)
    requires k <= |log| && forall i :: 0 <= i < k ==> !(lo <= log[i] <= hi)
    ensures Within(log, lo, hi) <= |log| - k
    ensures (forall i :: k <= i < |log| ==> lo <= log[i] <= hi) ==> Within(log, lo, hi) == |log| - k
    decreases |log|
  {
    if |log| > k { WithinTail(log[..|log| - 1], lo, hi, k); }
    else if |log| > 0 { WithinTail(log[..|log| - 1], lo, hi, k - 1); }
  }

  // Any limit + 1 consecutive admissions span more than sixty seconds.
  ghost predicate Spaced(log: seq<real>, limit: nat) {
    forall i, j :: 0 <= i && j == i + limit && j < |log| ==> log[j] - log[i] > 60.0
  }

  lemma {:induction false} SpacedMeansFew(log: seq<real>, limit: nat, lo: real)
    requires Sorted(log) && Spaced(log, limit) && limit >= 1
    ensures Within(log, lo, lo + 60.0) <= limit
    decreases |log|
  {
    if log != [] {
      var n := |log| - 1;
      var front := log[..n];
      if lo <= log[n] <= lo + 60.0 && n >= limit {
        var k := n - limit;
        assert log[n] - log[k] > 60.0;
        assert forall i :: 0 <= i <= k ==> log[i] <= log[k];
        WithinTail(log, lo, lo + 60.0, k + 1);
      } else if lo <= log[n] <= lo + 60.0 {
        WithinTail(log, lo, lo + 60.0, 0);
      } else {
        SpacedMeansFew(front, limit, lo);
      }
    }
  }

  // ---------- one key ----------

  // `kept` is the log without some admissions that are too old by now.
  ghost predicate TrackInv(t: Track, clock: real, limit: int) {
    && Sorted(t.log) && (forall i :: 0 <= i < |t.log| ==> t.log[i] <= clock)
    && |t.kept| <= |t.log| && t.kept == t.log[|t.log| - |t.kept|..]
    && (forall i :: 0 <= i < |t.log| - |t.kept| ==> t.log[i] < clock - 60.0)
    && |t.kept| <= limit && Spaced(t.log, limit)
  }

  // Evicting from a suffix of a sorted log leaves the suffix of recent entries.
  lemma {:induction false} EvictSuffix(log: seq<real>, a: nat, cutoff: real)
    requires Sorted(log) && a <= |log|
    ensures var kept := Evict(log[a..], cutoff); var b := |log| - |kept|;
            && a <= b <= |log| && kept == log[b..]
            && (forall i :: a <= i < b ==> log[i] < cutoff)
            && (forall i :: b <= i < |log| ==> log[i] >= cutoff)
    decreases |log| - a
  {
    if a < |log| && log[a] < cutoff {
      assert log[a..][1..] == log[a + 1..];
      EvictSuffix(log, a + 1, cutoff);
    }
  }

  // After eviction the list is exactly the admissions of the last sixty seconds.
  lemma KeptIsWindow(t: Track, clock: real, now: real, limit: int)
    requires TrackInv(t, clock, limit) && clock <= now
    ensures var kept := Evict(t.kept, now - 60.0); var b := |t.log| - |kept|;
            && |kept| == Within(t.log, now - 60.0, now) && |kept| <= |t.kept| && 0 <= b && kept == t.log[b..]
            && (forall i :: 0 <= i < b ==> t.log[i] < now - 60.0)
            && (forall i :: b <= i < |t.log| ==> now - 60.0 <= t.log[i] <= now)
  {
    hide Spaced, Within;
    var a := |t.log| - |t.kept|;
    EvictSuffix(t.log, a, now - 60.0);
    WithinTail(t.log, now - 60.0, now, |t.log| - |Evict(t.kept, now - 60.0)|);
  }

  // A request is refused exactly when the last sixty seconds already hold `limit` admissions.
  lemma RefusedIff(t: Track, clock: real, now: real, limit: int)
    requires TrackInv(t, clock, limit) && clock <= now && limit >= 1
    ensures Answer(t, now, limit).Refused? <==> Within(t.log, now - 60.0, now) >= limit
    ensures !Answer(t, now, limit).Broken?
  {
    KeptIsWindow(t, clock, now, limit);
  }

  lemma ServeKeepsInv(t: Track, clock: real, now: real, limit: int)
    requires TrackInv(t, clock, limit) && clock <= now && limit >= 1
    ensures TrackInv(Serve(t, now, limit), now, limit)
  {
    KeptIsWindow(t, clock, now, limit);
    var kept := Evict(t.kept, now - 60.0);
    hide Evict;
    if Answer(t, now, limit).Admitted? { AdmitKeepsInv(t.log, |t.log| - |kept|, now, limit); }
  }

  lemma AdmitKeepsInv(log: seq<real>, b: nat, now: real, limit: nat)
    requires Sorted(log) && b <= |log| && Spaced(log, limit) && |log| - b < limit
    requires forall i :: 0 <= i < b ==> log[i] < now - 60.0
    requires forall i :: 0 <= i < |log| ==> log[i] <= now
    ensures TrackInv(Track(log[b..] + [now], log + [now]), now, limit)
  {
    assert (log + [now])[b..] == log[b..] + [now];
  }

  // Waiting exactly the announced seconds with no other traffic gets admitted; one second less does not.
  lemma RetryAfterIsLeast(t: Track, clock: real, now: real, limit: int)
    requires TrackInv(t, clock, limit) && clock <= now && limit >= 1 && Answer(t, now, limit).Refused?
    ensures var wait := Answer(t, now, limit).retryAfter; var t' := Serve(t, now, limit);
            && 1 <= wait <= 61
            && Answer(t', now + wait as real, limit).Admitted?
            && Answer(t', now + (wait - 1) as real, limit).Refused?
  {
    var kept := Evict(t.kept, now - 60.0);
    FullAndRecent(t, clock, now, limit);
    var x := 60.0 - (now - kept[0]);
    var wait := Truncate(x) + 1;
    FloorBounds(x);
    hide TrackInv, Evict, Truncate;
    HeadDecides(kept, now + wait as real, limit);
    HeadDecides(kept, now + (wait - 1) as real, limit);
  }

  // A refusal leaves exactly `limit` recent admissions.
  lemma FullAndRecent(t: Track, clock: real, now: real, limit: int)
    requires TrackInv(t, clock, limit) && clock <= now && limit >= 1 && Answer(t, now, limit).Refused?
    ensures var kept := Evict(t.kept, now - 60.0);
            |kept| == limit && now - 60.0 <= kept[0] <= now && Serve(t, now, limit).kept == kept
  {
    KeptIsWindow(t, clock, now, limit);
    hide Evict, Within, Spaced, Sorted;
    var kept := Evict(t.kept, now - 60.0);
    assert kept[0] == t.log[|t.log| - |kept|];
  }

  lemma FloorBounds(x: real)
    requires 0.0 <= x <= 60.0
    ensures 0 <= Truncate(x) <= 60 && Truncate(x) as real <= x < (Truncate(x) + 1) as real
  {}

  // A full list admits a later request exactly when its head has left the window.
  lemma HeadDecides(kept: seq<real>, later: real, limit: int)
    requires |kept| == limit >= 1
    ensures ReplyTo(Evict(kept, later - 60.0), later, limit).Admitted? <==> kept[0] < later - 60.0
    ensures ReplyTo(Evict(kept, later - 60.0), later, limit).Refused? <==> kept[0] >= later - 60.0
  {
    EvictShortens(kept[1..], later - 60.0);
  }

  lemma EvictShortens(times: seq<real>, cutoff: real)
    ensures |Evict(times, cutoff)| <= |times|
  {}

  // With a limit below one and no recent admissions the handler breaks instead of refusing.
  lemma BrokenIff(t: Track, now: real, limit: int)
    ensures Answer(t, now, limit).Broken? <==> limit <= 0 && Evict(t.kept, now - 60.0) == []
  {}

  // What serving a request leaves: an admission is logged exactly when the last sixty seconds hold fewer than
  // `limit`, and the list kept is the admissions of the last sixty seconds.
  lemma ServeAs(t: Track, clock: real, now: real, limit: int)
    requires TrackInv(t, clock, limit) && clock <= now && limit >= 1
    ensures var t' := Serve(t, now, limit); var b := |t'.log| - |t'.kept|;
            && t'.log == (if Within(t.log, now - 60.0, now) < limit then t.log + [now] else t.log)
            && 0 <= b && t'.kept == t'.log[b..]
            && forall i :: 0 <= i < |t'.log| ==> (i >= b <==> now - 60.0 <= t'.log[i])
  {
    KeptIsWindow(t, clock, now, limit);
    var kept := Evict(t.kept, now - 60.0);
    hide Evict, Within, Spaced, Sorted;
    var b := |t.log| - |kept|;
    assert (t.log + [now])[b..] == t.log[b..] + [now];
  }

  // The count of a window is the number of admissions in it.
  lemma {:induction false} WithinCounts(log: seq<real>, lo: real, hi: real)
    ensures Within(log, lo, hi) == |InWindow(log, lo, hi)|
    decreases |log|
  {
    if log == [] { assert InWindow(log, lo, hi) == {}; }
    else {
      var n := |log| - 1;
      WithinCounts(log[..n], lo, hi);
      assert InWindow(log, lo, hi) == InWindow(log[..n], lo, hi) + (if lo <= log[n] <= hi then {n} else {});
    }
  }

  ghost function InWindow(log: seq<real>, lo: real, hi: real): set<nat> {
    set i: nat | i < |log| && lo <= log[i] <= hi
  }

  // ---------- all keys, over any run ----------

  datatype Request = Request(key: Key, now: real)

  function Get(s: map<Key, Track>, k: Key): Track { if k in s then s[k] else Track([], []) }

  function Next(s: map<Key, Track>, limits: Limits, r: Request): map<Key, Track> {
    s[r.key := Serve(Get(s, r.key), r.now, LimitOf(limits, r.key))]
  }

  function Run(s: map<Key, Track>, limits: Limits, rs: seq<Request>): map<Key, Track>
    decreases |rs|
  {
    if rs == [] then s else Run(Next(s, limits, rs[0]), limits, rs[1..])
  }

  // A request touches the admissions of its own principal and kind only, under the limit of that kind.
  lemma NextAs(s: map<Key, Track>, limits: Limits, clock: real, r: Request)
    requires Inv(s, limits, clock) && clock <= r.now
    ensures var s' := Next(s, limits, r); var limit := if r.key.mutation then limits.mutations else limits.queries;
            && (forall k :: k != r.key ==> Get(s', k) == Get(s, k))
            && Get(s', r.key).log == (if |InWindow(Get(s, r.key).log, r.now - 60.0, r.now)| < limit
                                      then Get(s, r.key).log + [r.now] else Get(s, r.key).log)
  {
    hide TrackInv, Serve, Within, InWindow;
    ServeAs(Get(s, r.key), clock, r.now, LimitOf(limits, r.key));
    WithinCounts(Get(s, r.key).log, r.now - 60.0, r.now);
  }

  // The clock does not go back.
  predicate Forward(clock: real, rs: seq<Request>)
    decreases |rs|
  {
    rs == [] || (clock <= rs[0].now && Forward(rs[0].now, rs[1..]))
  }

  function Last(clock: real, rs: seq<Request>): real {
    if rs == [] then clock else rs[|rs| - 1].now
  }

  ghost predicate Inv(s: map<Key, Track>, limits: Limits, clock: real) {
    limits.mutations >= 1 && limits.queries >= 1 && forall k :: TrackInv(Get(s, k), clock, LimitOf(limits, k))
  }

  lemma Later(t: Track, clock: real, now: real, limit: int)
    requires TrackInv(t, clock, limit) && clock <= now
    ensures TrackInv(t, now, limit)
  {}

  lemma {:induction false} RunKeepsInv(s: map<Key, Track>, limits: Limits, clock: real, rs: seq<Request>)
    requires Inv(s, limits, clock) && Forward(clock, rs)
    ensures Inv(Run(s, limits, rs), limits, Last(clock, rs))
    decreases |rs|
  {
    hide TrackInv, Serve;
    if rs != [] {
      var r := rs[0];
      ServeKeepsInv(Get(s, r.key), clock, r.now, LimitOf(limits, r.key));
      forall k ensures TrackInv(Get(Next(s, limits, r), k), r.now, LimitOf(limits, k)) {
        if k != r.key { Later(Get(s, k), clock, r.now, LimitOf(limits, k)); }
      }
      RunKeepsInv(Next(s, limits, r), limits, r.now, rs[1..]);
    }
  }

  // Over every run with a forward clock: no closed sixty-second window ever holds more than the
  // limit, and the next request is refused exactly when its last sixty seconds are full.
  lemma EveryWindowIsBounded(limits: Limits, clock: real, rs: seq<Request>, k: Key, lo: real, now: real)
    requires limits.mutations >= 1 && limits.queries >= 1 && Forward(clock, rs) && Last(clock, rs) <= now
    ensures var t, limit := Get(Run(map[], limits, rs), k), LimitOf(limits, k);
            && Within(t.log, lo, lo + 60.0) <= limit
            && (Answer(t, now, limit).Refused? <==> Within(t.log, now - 60.0, now) >= limit)
            && (Answer(t, now, limit).Admitted? <==> Within(t.log, now - 60.0, now) < limit)
  {
    RunKeepsInv(map[], limits, clock, rs);
    hide Run;
    var t, limit := Get(Run(map[], limits, rs), k), LimitOf(limits, k);
    assert TrackInv(t, Last(clock, rs), limit);
    SpacedMeansFew(t.log, limit, lo);
    RefusedIff(t, Last(clock, rs), now, limit);
  }

  // ---------- the object ----------

  class RateLimitMiddleware {
    const limits: Limits
    var history: map<Key, seq<real>>
    ghost var tracks: map<Key, Track>

    ghost predicate Valid()
      reads this
    {
      forall k :: Kept(k) == Get(tracks, k).kept
    }

    function Kept(k: Key): seq<real>
      reads this
    {
      if k in history then history[k] else []
    }

    constructor (limits: Limits)
      ensures Valid() && this.limits == limits && tracks == map[]
    {
      this.limits := limits;
      history, tracks := map[], map[];
    }

    method Dispatch(key: Key, now: real) returns (reply: Reply)
      requires Valid()
      modifies this
      ensures Valid() && tracks == Next(old(tracks), limits, Request(key, now))
      ensures reply == Answer(Get(old(tracks), key), now, LimitOf(limits, key))
    {
      var limit := LimitOf(limits, key);
      var times := Kept(key);
      var cutoff := now - 60.0;
      while times != [] && times[0] < cutoff
        invariant Evict(times, cutoff) == Evict(Kept(key), cutoff)
        decreases |times|
      {
        times := times[1..];
      }
      assert Evict(times, cutoff) == times;
      tracks := Next(tracks, limits, Request(key, now));
      if |times| >= limit {
        reply := if times == [] then Broken else Refused(Truncate(60.0 - (now - times[0])) + 1);
      } else {
        times := times + [now];
        reply := Admitted;
      }
      history := history[key := times];
      assert Kept(key) == Get(tracks, key).kept;
      forall k ensures Kept(k) == Get(tracks, k).kept {
        if k != key { assert old(Kept(k)) == Get(old(tracks), k).kept; }
      }
    }
  }
}
