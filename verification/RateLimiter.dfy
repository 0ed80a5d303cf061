/** The sliding-window limiter of the transport (control_plane/transport.py)
    and the count over the full history that it implements. */
module RateLimiter {

  type Key = string

  datatype Config = Config(limit: nat, window: real, maxKeys: nat)

  /** Queues of accepted instants, and the keys in the order they were added;
      a queue never reaches its capacity of four times the limit. */
  datatype Limiter = Limiter(order: seq<Key>, events: map<Key, seq<real>>)

  const Empty := Limiter([], map[])

  datatype Call = Call(key: Key, now: real)

  function Expire(q: seq<real>, now: real, window: real): seq<real> {
    if q != [] && now - q[0] > window then Expire(q[1..], now, window) else q
  }

  function Enter(s: Limiter, key: Key): Limiter {
    if key in s.events then s else Limiter(s.order + [key], s.events[key := []])
  }

  /** Keys beyond the bound are dropped, the oldest first. */
  function Evict(s: Limiter, maxKeys: nat): Limiter {
    if |s.order| <= maxKeys then s else
    var n := |s.order| - maxKeys;
    Limiter(s.order[n..], s.events - (set k | k in s.order[..n]))
  }

  datatype Verdict = Verdict(state: Limiter, allowed: bool)

  function Admit(c: Config, s: Limiter, call: Call): Verdict {
    var t := Enter(s, call.key);
    var q := Expire(t.events[call.key], call.now, c.window);
    if |q| >= c.limit then Verdict(t.(events := t.events[call.key := q]), false)
    else Verdict(Evict(t.(events := t.events[call.key := q + [call.now]]), c.maxKeys), true)
  }

  function After(c: Config, h: seq<Call>): Limiter {
    if h == [] then Empty else Admit(c, After(c, h[..|h| - 1]), h[|h| - 1]).state
  }

  // ----- the full history ---------------------------------------------------------

  /** Instants of the list inside the closed window that ends at `now`. */
  function InWindow(a: seq<real>, now: real, window: real): nat {
    if a == [] then 0 else InWindow(a[..|a| - 1], now, window) + (if now - a[|a| - 1] <= window then 1 else 0)
  }

  /** Whether the last call was let through. */
  predicate LetThrough(c: Config, h: seq<Call>)
    requires h != []
  {
    Admit(c, After(c, h[..|h| - 1]), h[|h| - 1]).allowed
  }

  /** Whether the last call dropped the key to bound the memory. */
  predicate DropsNow(c: Config, h: seq<Call>, key: Key)
    requires h != []
  {
    key in Enter(After(c, h[..|h| - 1]), h[|h| - 1].key).events && key !in After(c, h).events
  }

  /** What happened to one key: the instants at which its calls were let through
      and at which it was dropped, and the calls let through since then. */
  datatype Track = Track(allowed: seq<real>, dropped: seq<real>, since: seq<real>)

  function NextTrack(t: Track, now: real, through: bool, drops: bool): Track {
    Track(if through then t.allowed + [now] else t.allowed,
          if drops then t.dropped + [now] else t.dropped,
          if drops then [] else if through then t.since + [now] else t.since)
  }

  function TrackOf(c: Config, h: seq<Call>, key: Key): Track {
    if h == [] then Track([], [], []) else
    NextTrack(TrackOf(c, h[..|h| - 1], key), h[|h| - 1].now, h[|h| - 1].key == key && LetThrough(c, h),
              DropsNow(c, h, key))
  }

  /** Every instant at which a call of the key was let through. */
  function Allowed(c: Config, h: seq<Call>, key: Key): seq<real> { TrackOf(c, h, key).allowed }

  /** Every instant at which the key was dropped. */
  function Dropped(c: Config, h: seq<Call>, key: Key): seq<real> { TrackOf(c, h, key).dropped }

  /** The calls let through since the key was last dropped. */
  function Since(c: Config, h: seq<Call>, key: Key): seq<real> { TrackOf(c, h, key).since }

  /** Whether a call would be a call of the key that is let through. */
  predicate Through(c: Config, h: seq<Call>, call: Call, key: Key) {
    call.key == key && Admit(c, After(c, h), call).allowed
  }

  /** Whether it would drop the key. */
  predicate Drops(c: Config, h: seq<Call>, call: Call, key: Key) {
    key in Enter(After(c, h), call.key).events && key !in Admit(c, After(c, h), call).state.events
  }

  lemma OneMoreCall(c: Config, h: seq<Call>, call: Call, key: Key)
    ensures After(c, h + [call]) == Admit(c, After(c, h), call).state
    ensures TrackOf(c, h + [call], key) ==
            NextTrack(TrackOf(c, h, key), call.now, Through(c, h, call, key), Drops(c, h, call, key))
  {
    assert (h + [call])[..|h|] == h;
  }

  /** The clock never goes back, and stands at `now` at the latest. */
  predicate ClockOk(h: seq<Call>, now: real) {
    h == [] || (h[|h| - 1].now <= now && ClockOk(h[..|h| - 1], h[|h| - 1].now))
  }

  predicate Sorted(a: seq<real>) { forall i, j :: 0 <= i <= j < |a| ==> a[i] <= a[j] }

  /** Any `limit + 1` accepted calls in a row span more than the window. */
  predicate Sparse(c: Config, a: seq<real>) {
    forall i :: 0 <= i && i + c.limit < |a| ==> a[i + c.limit] - a[i] > c.window
  }

  /** The queue is what is left of the list after dropping instants that are
      out of the window for good. */
  predicate Tail(c: Config, q: seq<real>, a: seq<real>, now: real) {
    && |q| <= |a| && q == a[|a| - |q|..]
    && (forall i :: 0 <= i < |a| - |q| ==> now - a[i] > c.window)
  }

  lemma {:induction false} WindowIsTail(a: seq<real>, now: real, window: real, d: nat)
    requires Sorted(a) && d <= |a|
    requires forall i :: 0 <= i < d ==> now - a[i] > window
    requires d < |a| ==> now - a[d] <= window
    ensures InWindow(a, now, window) == |a| - d
  {
    if a == [] { return; }
    var b := a[..|a| - 1];
    assert forall i :: 0 <= i < |b| ==> b[i] == a[i];
    if d < |a| {
      assert a[d] <= a[|a| - 1];
      WindowIsTail(b, now, window, d);
    } else {
      WindowIsTail(b, now, window, d - 1);
    }
  }

  /** Expiring the queue leaves exactly the instants in the window. */
  lemma {:induction false} ExpireCounts(c: Config, q: seq<real>, a: seq<real>, now: real)
    requires Sorted(a) && Tail(c, q, a, now)
    ensures Tail(c, Expire(q, now, c.window), a, now)
    ensures |Expire(q, now, c.window)| == InWindow(a, now, c.window)
    decreases |q|
  {
    var d := |a| - |q|;
    if q != [] && now - q[0] > c.window {
      assert q[0] == a[d];
      assert q[1..] == a[d + 1..];
      ExpireCounts(c, q[1..], a, now);
    } else {
      if q != [] { assert q[0] == a[d]; }
      WindowIsTail(a, now, c.window, d);
    }
  }

  /** A queue of a list of accepted instants that respects the limit. */
  ghost predicate QueueOk(c: Config, q: seq<real>, a: seq<real>, now: real) {
    Tail(c, q, a, now) && Sorted(a) && Sparse(c, a) && forall i :: 0 <= i < |a| ==> a[i] <= now
  }

  ghost predicate KeyOk(c: Config, s: Limiter, a: seq<real>, key: Key, now: real) {
    (key in s.events || a == []) && QueueOk(c, if key in s.events then s.events[key] else [], a, now)
  }

  lemma TailExtends(c: Config, q: seq<real>, a: seq<real>, now: real)
    requires Tail(c, q, a, now)
    ensures Tail(c, q + [now], a + [now], now)
  {
    var b := a + [now];
    assert q + [now] == b[|b| - |q| - 1..];
  }

  lemma SparseExtends(c: Config, q: seq<real>, a: seq<real>, now: real)
    requires Sparse(c, a) && Tail(c, q, a, now) && |q| < c.limit
    ensures Sparse(c, a + [now])
  {
    var b := a + [now];
    forall i | 0 <= i && i + c.limit < |b| ensures b[i + c.limit] - b[i] > c.window {
      assert b[i] == a[i];
      if i + c.limit < |a| { assert b[i + c.limit] == a[i + c.limit]; }
    }
  }

  /** Eviction only removes keys. */
  lemma EvictKeeps(s: Limiter, maxKeys: nat, key: Key)
    ensures key in Evict(s, maxKeys).events ==> key in s.events && Evict(s, maxKeys).events[key] == s.events[key]
  {
  }

  /** What one call does to the queue of its key. */
  lemma AdmitDid(c: Config, s: Limiter, call: Call)
    ensures var q := Expire(Enter(s, call.key).events[call.key], call.now, c.window);
            var v := Admit(c, s, call);
            && v.allowed == (|q| < c.limit)
            && (call.key in v.state.events ==> v.state.events[call.key] == if v.allowed then q + [call.now] else q)
            && (!v.allowed ==> call.key in v.state.events)
  {
    var t := Enter(s, call.key);
    var q := Expire(t.events[call.key], call.now, c.window);
    EvictKeeps(t.(events := t.events[call.key := q + [call.now]]), c.maxKeys, call.key);
  }

  lemma QueueExtends(c: Config, q: seq<real>, a: seq<real>, now: real)
    requires QueueOk(c, q, a, now) && |q| < c.limit
    ensures QueueOk(c, q + [now], a + [now], now)
  {
    SparseExtends(c, q, a, now);
    TailExtends(c, q, a, now);
  }

  lemma QueueKeeps(c: Config, all: seq<real>, a: seq<real>, from: real, now: real)
    requires QueueOk(c, all, a, from) && from <= now
    ensures var q := Expire(all, now, c.window);
            && |q| == InWindow(a, now, c.window) && QueueOk(c, q, a, now)
            && (|q| < c.limit ==> QueueOk(c, q + [now], a + [now], now))
  {
    ExpireCounts(c, all, a, now);
    var q := Expire(all, now, c.window);
    if |q| < c.limit { QueueExtends(c, q, a, now); }
  }

  lemma KeyOkFrom(c: Config, t: Limiter, q: seq<real>, a: seq<real>, key: Key, now: real)
    requires (key in t.events ==> t.events[key] == q) && QueueOk(c, q, a, now)
    ensures KeyOk(c, t, if key in t.events then a else [], key, now)
  {
  }

  /** One call, judged by the queue and by the whole list, comes out the same. */
  lemma CallKeeps(c: Config, s: Limiter, a: seq<real>, call: Call, now: real)
    requires KeyOk(c, s, a, call.key, now) && now <= call.now
    ensures var v := Admit(c, s, call);
            && (v.allowed <==> InWindow(a, call.now, c.window) < c.limit)
            && KeyOk(c, v.state, if call.key !in v.state.events then [] else if v.allowed then a + [call.now] else a,
                     call.key, call.now)
  {
    AdmitDid(c, s, call);
    var all, v := Enter(s, call.key).events[call.key], Admit(c, s, call);
    var q := Expire(all, call.now, c.window);
    QueueKeeps(c, all, a, now, call.now);
    if v.allowed { KeyOkFrom(c, v.state, q + [call.now], a + [call.now], call.key, call.now); }
    else { KeyOkFrom(c, v.state, q, a, call.key, call.now); }
  }

  lemma OthersKeep(c: Config, s: Limiter, a: seq<real>, call: Call, key: Key, now: real)
    requires KeyOk(c, s, a, key, now) && now <= call.now && key != call.key
    ensures var t := Admit(c, s, call).state; KeyOk(c, t, if key in t.events then a else [], key, call.now)
  {
    var t := Enter(s, call.key);
    var q := Expire(t.events[call.key], call.now, c.window);
    EvictKeeps(t.(events := t.events[call.key := q + [call.now]]), c.maxKeys, key);
  }

  lemma KeyOkFades(c: Config, s: Limiter, a: seq<real>, key: Key, now: real, later: real)
    requires KeyOk(c, s, a, key, now) && now <= later
    ensures KeyOk(c, s, a, key, later)
  {
  }

  /** The calls remembered after one more call. */
  lemma SinceIs(c: Config, h: seq<Call>, call: Call, key: Key)
    ensures var a := Since(c, h, key);
            Since(c, h + [call], key) ==
            if Drops(c, h, call, key) then [] else if Through(c, h, call, key) then a + [call.now] else a
  {
    OneMoreCall(c, h, call, key);
  }

  lemma MatchGoesOn(c: Config, h: seq<Call>, call: Call, key: Key)
    requires KeyOk(c, After(c, h), Since(c, h, key), key, call.now)
    ensures KeyOk(c, Admit(c, After(c, h), call).state, Since(c, h + [call], key), key, call.now)
  {
    SinceIs(c, h, call, key);
    if call.key == key { CallKeeps(c, After(c, h), Since(c, h, key), call, call.now); }
    else { OthersKeep(c, After(c, h), Since(c, h, key), call, key, call.now); }
  }

  lemma {:induction false} LimiterMatches(c: Config, h: seq<Call>, key: Key, now: real)
    requires ClockOk(h, now)
    ensures KeyOk(c, After(c, h), Since(c, h, key), key, now)
    decreases |h|
  {
    if h == [] { return; }
    var before, call := h[..|h| - 1], h[|h| - 1];
    LimiterMatches(c, before, key, call.now);
    MatchGoesOn(c, before, call, key);
    assert before + [call] == h;
    KeyOkFades(c, After(c, h), Since(c, h, key), key, call.now, now);
  }

  /** `allow` is true exactly when fewer than `limit` of the calls let through
      since the key was last dropped lie in the closed window that ends now. */
  lemma AllowCountsKept(c: Config, h: seq<Call>, call: Call)
    requires ClockOk(h, call.now)
    ensures Admit(c, After(c, h), call).allowed <==> InWindow(Since(c, h, call.key), call.now, c.window) < c.limit
  {
    LimiterMatches(c, h, call.key, call.now);
    CallKeeps(c, After(c, h), Since(c, h, call.key), call, call.now);
  }

  // ----- what dropping a key forgets -----------------------------------------------

  /** The calls remembered are the last ones let through, and all others are no
      later than the last time the key was dropped. */
  ghost predicate TrackOk(t: Track, now: real) {
    && |t.since| <= |t.allowed| && t.allowed[|t.allowed| - |t.since|..] == t.since
    && (forall i :: 0 <= i < |t.allowed| ==> t.allowed[i] <= now)
    && (|t.allowed| > |t.since| ==> t.dropped != [])
    && (forall i :: 0 <= i < |t.allowed| - |t.since| ==> t.allowed[i] <= t.dropped[|t.dropped| - 1])
  }

  lemma TrackStep(t: Track, last: real, now: real, through: bool, drops: bool)
    requires TrackOk(t, last) && last <= now
    ensures TrackOk(NextTrack(t, now, through, drops), now)
  {
    var n := NextTrack(t, now, through, drops);
    if through && !drops {
      assert n.allowed[|n.allowed| - |n.since|..] == t.allowed[|t.allowed| - |t.since|..] + [now];
    }
  }

  lemma TrackGoesOn(c: Config, h: seq<Call>, call: Call, key: Key)
    requires TrackOk(TrackOf(c, h, key), call.now)
    ensures TrackOk(TrackOf(c, h + [call], key), call.now)
  {
    OneMoreCall(c, h, call, key);
    TrackStep(TrackOf(c, h, key), call.now, call.now, Through(c, h, call, key), Drops(c, h, call, key));
  }

  lemma TrackFades(t: Track, now: real, later: real)
    requires TrackOk(t, now) && now <= later
    ensures TrackOk(t, later)
  {
  }

  lemma {:induction false} TracksAreOk(c: Config, h: seq<Call>, key: Key, now: real)
    requires ClockOk(h, now)
    ensures TrackOk(TrackOf(c, h, key), now)
    decreases |h|
  {
    if h == [] { return; }
    var before, call := h[..|h| - 1], h[|h| - 1];
    TracksAreOk(c, before, key, call.now);
    TrackGoesOn(c, before, call, key);
    assert before + [call] == h;
    TrackFades(TrackOf(c, h, key), call.now, now);
  }

  /** The calls let through before the key was last dropped. */
  function Forgotten(c: Config, h: seq<Call>, key: Key): seq<real> {
    var t := TrackOf(c, h, key);
    if |t.since| <= |t.allowed| then t.allowed[..|t.allowed| - |t.since|] else []
  }

  lemma {:induction false} WindowAdds(a: seq<real>, b: seq<real>, now: real, window: real)
    ensures InWindow(a + b, now, window) == InWindow(a, now, window) + InWindow(b, now, window)
    decreases |b|
  {
    if b == [] {
      assert a + b == a;
    } else {
      assert (a + b)[..|a + b| - 1] == a + b[..|b| - 1];
      WindowAdds(a, b[..|b| - 1], now, window);
    }
  }

  lemma NothingElse(c: Config, h: seq<Call>, key: Key, now: real)
    requires TrackOk(TrackOf(c, h, key), now)
    ensures Allowed(c, h, key) == Forgotten(c, h, key) + Since(c, h, key)
  {
  }

  /** The decision is the one a count over the whole history would give if and
      only if what was forgotten makes no difference: nothing forgotten lies in
      the window, or the remembered calls fill it, or even together they do not. */
  lemma AgreesExactly(c: Config, h: seq<Call>, call: Call)
    requires ClockOk(h, call.now)
    ensures var kept := InWindow(Since(c, h, call.key), call.now, c.window);
            var lost := InWindow(Forgotten(c, h, call.key), call.now, c.window);
            (Admit(c, After(c, h), call).allowed <==> InWindow(Allowed(c, h, call.key), call.now, c.window) < c.limit)
            <==> lost == 0 || kept >= c.limit || lost + kept < c.limit
  {
    AllowCountsKept(c, h, call);
    TracksAreOk(c, h, call.key, call.now);
    NothingElse(c, h, call.key, call.now);
    WindowAdds(Forgotten(c, h, call.key), Since(c, h, call.key), call.now, c.window);
  }

  lemma {:induction false} OldIsOutside(a: seq<real>, now: real, window: real)
    requires forall i :: 0 <= i < |a| ==> now - a[i] > window
    ensures InWindow(a, now, window) == 0
  {
    if a != [] { OldIsOutside(a[..|a| - 1], now, window); }
  }

  lemma ForgottenIsOld(c: Config, h: seq<Call>, call: Call)
    requires TrackOk(TrackOf(c, h, call.key), call.now)
    requires var d := Dropped(c, h, call.key); d == [] || call.now - d[|d| - 1] > c.window
    ensures forall i :: 0 <= i < |Forgotten(c, h, call.key)| ==> call.now - Forgotten(c, h, call.key)[i] > c.window
  {
  }

  /** A key that was not dropped within the window is judged by its whole
      history. */
  lemma KeptKeyCountsAll(c: Config, h: seq<Call>, call: Call)
    requires ClockOk(h, call.now)
    requires var d := Dropped(c, h, call.key); d == [] || call.now - d[|d| - 1] > c.window
    ensures Admit(c, After(c, h), call).allowed <==> InWindow(Allowed(c, h, call.key), call.now, c.window) < c.limit
  {
    TracksAreOk(c, h, call.key, call.now);
    ForgottenIsOld(c, h, call);
    OldIsOutside(Forgotten(c, h, call.key), call.now, c.window);
    AgreesExactly(c, h, call);
  }

  // ----- how far the limit can be exceeded --------------------------------------------

  /** Instants of the list inside a closed window. */
  function Within(a: seq<real>, lo: real, hi: real): nat {
    if a == [] then 0 else Within(a[..|a| - 1], lo, hi) + (if lo <= a[|a| - 1] <= hi then 1 else 0)
  }

  lemma {:induction false} SparseWithin(c: Config, a: seq<real>, lo: real, m: nat, n: nat)
    requires Sorted(a) && Sparse(c, a) && n <= |a|
    requires m <= |a| && (forall i :: 0 <= i < m ==> a[i] < lo) && (m < |a| ==> a[m] >= lo)
    ensures Within(a[..n], lo, lo + c.window) <= (if n <= m then 0 else if n - m <= c.limit then n - m else c.limit)
    decreases n
  {
    if n == 0 { return; }
    assert a[..n][..n - 1] == a[..n - 1];
    SparseWithin(c, a, lo, m, n - 1);
    if n - 1 >= m + c.limit { SparseGap(c, a, m, n - 1); }
  }

  /** Calls that were never forgotten respect the limit in every window. */
  lemma SparseFits(c: Config, a: seq<real>, lo: real)
    requires Sorted(a) && Sparse(c, a)
    ensures Within(a, lo, lo + c.window) <= c.limit
  {
    SparseWithin(c, a, lo, Entry(a, lo), |a|);
    assert a[..|a|] == a;
  }

  lemma SparseGap(c: Config, a: seq<real>, m: nat, i: nat)
    requires Sorted(a) && Sparse(c, a) && m + c.limit <= i < |a|
    ensures a[i] - a[m] > c.window
  {
    assert a[m + c.limit] <= a[i];
  }

  /** The first index at or after an instant. */
  function Entry(a: seq<real>, start: real): (m: nat)
    ensures m <= |a| && (forall i :: 0 <= i < m ==> a[i] < start) && (m < |a| ==> a[m] >= start)
  {
    if a == [] || a[0] >= start then 0 else
    var n := Entry(a[1..], start);
    assert forall i :: 0 < i < 1 + n ==> a[i] == a[1..][i - 1];
    1 + n
  }

  lemma {:induction false} EarlyIsOutside(a: seq<real>, lo: real, hi: real)
    requires forall i :: 0 <= i < |a| ==> a[i] < lo
    ensures Within(a, lo, hi) == 0
  {
    if a != [] { EarlyIsOutside(a[..|a| - 1], lo, hi); }
  }

  lemma WithinAppend(a: seq<real>, x: real, lo: real, hi: real)
    ensures Within(a + [x], lo, hi) == Within(a, lo, hi) + (if lo <= x <= hi then 1 else 0)
  {
    assert (a + [x])[..|a|] == a;
  }

  /** `limit` times `d`, as a sum. */
  function Share(limit: nat, d: nat): nat { if d == 0 then 0 else Share(limit, d - 1) + limit }

  lemma {:induction false} ShareIsProduct(limit: nat, d: nat)
    ensures Share(limit, d) == limit * d
  {
    if d > 0 {
      ShareIsProduct(limit, d - 1);
      assert limit * d == limit * (d - 1) + limit;
    }
  }

  /** The counts respect the bound; `open` says that the window is not over. */
  predicate Fits(limit: nat, d: nat, all: nat, kept: nat, open: bool) {
    all <= Share(limit, d) + limit && (open ==> all <= Share(limit, d) + kept)
  }

  /** The bound for one window, while it is still open and after it has closed. */
  predicate BoundOk(limit: nat, t: Track, lo: real, hi: real, now: real) {
    Fits(limit, Within(t.dropped, lo, hi), Within(t.allowed, lo, hi), Within(t.since, lo, hi), now <= hi)
  }

  function One(b: bool): nat { if b then 1 else 0 }

  /** What one call adds to the three counts keeps the bound; `here` says that
      the call lies in the window. */
  lemma BoundNumbers(limit: nat, d: nat, all: nat, kept: nat, through: bool, drops: bool, here: bool, open: bool)
    requires Fits(limit, d, all, kept, open) && kept <= limit
    requires (here ==> open) && (through && here ==> kept + 1 <= limit) && (open && !here ==> all == 0)
    ensures Fits(limit, d + One(drops && here), all + One(through && here),
                 if drops then 0 else kept + One(through && here), open)
  {
    assert Share(limit, d + 1) == Share(limit, d) + limit;
  }

  lemma TrackCounts(t: Track, now: real, through: bool, drops: bool, lo: real, hi: real)
    ensures var n, here := NextTrack(t, now, through, drops), lo <= now <= hi;
            && Within(n.allowed, lo, hi) == Within(t.allowed, lo, hi) + One(through && here)
            && Within(n.dropped, lo, hi) == Within(t.dropped, lo, hi) + One(drops && here)
            && Within(n.since, lo, hi) == if drops then 0 else Within(t.since, lo, hi) + One(through && here)
  {
    WithinAppend(t.allowed, now, lo, hi);
    WithinAppend(t.since, now, lo, hi);
    WithinAppend(t.dropped, now, lo, hi);
  }

  lemma BeforeIsEmpty(t: Track, now: real, lo: real, hi: real)
    requires TrackOk(t, now) && now < lo
    ensures Within(t.allowed, lo, hi) == 0
  {
    EarlyIsOutside(t.allowed, lo, hi);
  }

  /** The next call finds the bound kept, with room if it is let through. */
  predicate Ready(limit: nat, t: Track, lo: real, hi: real, now: real, through: bool) {
    && BoundOk(limit, t, lo, hi, now) && Within(t.since, lo, hi) + One(through && lo <= now <= hi) <= limit
    && (now < lo ==> Within(t.allowed, lo, hi) == 0)
  }

  lemma BoundStep(limit: nat, t: Track, n: Track, lo: real, hi: real, now: real, through: bool, drops: bool)
    requires Ready(limit, t, lo, hi, now, through) && n == NextTrack(t, now, through, drops)
    ensures BoundOk(limit, n, lo, hi, now)
  {
    BoundNumbers(limit, Within(t.dropped, lo, hi), Within(t.allowed, lo, hi), Within(t.since, lo, hi),
                 through, drops, lo <= now <= hi, now <= hi);
    TrackCounts(t, now, through, drops, lo, hi);
  }

  lemma BoundFades(limit: nat, t: Track, lo: real, hi: real, now: real, later: real)
    requires BoundOk(limit, t, lo, hi, now) && now <= later
    ensures BoundOk(limit, t, lo, hi, later)
  {
  }

  lemma ExtendedFits(c: Config, h: seq<Call>, call: Call, lo: real)
    requires ClockOk(h, call.now) && Admit(c, After(c, h), call).allowed
    ensures Within(Since(c, h, call.key), lo, lo + c.window) + One(lo <= call.now <= lo + c.window) <= c.limit
  {
    LimiterMatches(c, h, call.key, call.now);
    var a := Since(c, h, call.key);
    AdmitDid(c, After(c, h), call);
    QueueKeeps(c, Enter(After(c, h), call.key).events[call.key], a, call.now, call.now);
    SparseFits(c, a + [call.now], lo);
    WithinAppend(a, call.now, lo, lo + c.window);
  }

  /** With one more call the remembered calls still respect the limit. */
  lemma RememberedFit(c: Config, h: seq<Call>, call: Call, key: Key, lo: real, hi: real)
    requires ClockOk(h, call.now) && hi == lo + c.window
    ensures Within(Since(c, h, key), lo, hi) + One(Through(c, h, call, key) && lo <= call.now <= hi) <= c.limit
  {
    if Through(c, h, call, key) {
      ExtendedFits(c, h, call, lo);
    } else {
      LimiterMatches(c, h, key, call.now);
      SparseFits(c, Since(c, h, key), lo);
    }
  }

  lemma NothingYet(c: Config, h: seq<Call>, key: Key, now: real, lo: real, hi: real)
    requires ClockOk(h, now) && now < lo
    ensures Within(Allowed(c, h, key), lo, hi) == 0
  {
    TracksAreOk(c, h, key, now);
    BeforeIsEmpty(TrackOf(c, h, key), now, lo, hi);
  }

  lemma BoundIsReady(c: Config, h: seq<Call>, call: Call, key: Key, lo: real, hi: real)
    requires ClockOk(h, call.now) && hi == lo + c.window && BoundOk(c.limit, TrackOf(c, h, key), lo, hi, call.now)
    ensures Ready(c.limit, TrackOf(c, h, key), lo, hi, call.now, Through(c, h, call, key))
  {
    if call.now < lo { NothingYet(c, h, key, call.now, lo, hi); }
    RememberedFit(c, h, call, key, lo, hi);
  }

  lemma BoundGoesOn(c: Config, h: seq<Call>, call: Call, key: Key, lo: real, hi: real)
    requires ClockOk(h, call.now) && hi == lo + c.window && BoundOk(c.limit, TrackOf(c, h, key), lo, hi, call.now)
    ensures BoundOk(c.limit, TrackOf(c, h + [call], key), lo, hi, call.now)
  {
    BoundIsReady(c, h, call, key, lo, hi);
    OneMoreCall(c, h, call, key);
    BoundStep(c.limit, TrackOf(c, h, key), TrackOf(c, h + [call], key), lo, hi, call.now,
              Through(c, h, call, key), Drops(c, h, call, key));
  }

  lemma {:induction false} BoundHolds(c: Config, h: seq<Call>, key: Key, lo: real, hi: real, now: real)
    requires ClockOk(h, now) && hi == lo + c.window
    ensures BoundOk(c.limit, TrackOf(c, h, key), lo, hi, now)
    decreases |h|
  {
    if h == [] { return; }
    var before, call := h[..|h| - 1], h[|h| - 1];
    BoundHolds(c, before, key, lo, hi, call.now);
    BoundGoesOn(c, before, call, key, lo, hi);
    assert before + [call] == h;
    BoundFades(c.limit, TrackOf(c, h, key), lo, hi, call.now, now);
  }

  lemma FitsMeans(limit: nat, d: nat, all: nat, kept: nat, open: bool)
    requires Fits(limit, d, all, kept, open)
    ensures all <= limit * (1 + d)
  {
    ShareIsProduct(limit, d);
    assert limit * (1 + d) == limit * d + limit;
  }

  /** In every closed window, wherever it starts, a key gets at most `limit`
      calls through for each time it was dropped in it, and `limit` more; so at
      most `limit` if it was not dropped in it. */
  lemma WindowBound(c: Config, h: seq<Call>, key: Key, now: real, start: real)
    requires ClockOk(h, now)
    ensures Within(Allowed(c, h, key), start, start + c.window)
            <= c.limit * (1 + Within(Dropped(c, h, key), start, start + c.window))
  {
    var t, hi := TrackOf(c, h, key), start + c.window;
    BoundHolds(c, h, key, start, hi, now);
    FitsMeans(c.limit, Within(t.dropped, start, hi), Within(t.allowed, start, hi), Within(t.since, start, hi),
              now <= hi);
  }

  // ----- memory ------------------------------------------------------------------------

  ghost predicate OrderOk(s: Limiter) {
    && (forall i, j :: 0 <= i < j < |s.order| ==> s.order[i] != s.order[j])
    && (forall k :: k in s.order <==> k in s.events)
  }

  lemma DistinctSplits(order: seq<Key>, n: nat, j: nat)
    requires n <= j < |order| && forall i, k :: 0 <= i < k < |order| ==> order[i] != order[k]
    ensures order[j] !in order[..n]
  {
  }

  lemma EvictOrder(s: Limiter, maxKeys: nat)
    requires OrderOk(s)
    ensures OrderOk(Evict(s, maxKeys)) && |Evict(s, maxKeys).order| <= maxKeys
  {
    var n := |s.order| - maxKeys;
    if n > 0 {
      var t := Evict(s, maxKeys);
      assert s.order == s.order[..n] + s.order[n..];
      forall k ensures k in t.order <==> k in t.events {
        if k in t.order {
          var j :| n <= j < |s.order| && s.order[j] == k;
          DistinctSplits(s.order, n, j);
        }
      }
    }
  }

  /** For a positive limit the stored keys never exceed the bound after a call;
      a limit of zero refuses every call and keeps a key for each. */
  lemma {:induction false} KeysAreBounded(c: Config, h: seq<Call>)
    requires c.limit >= 1
    ensures OrderOk(After(c, h)) && |After(c, h).order| <= c.maxKeys
  {
    if h == [] { return; }
    var s, call := After(c, h[..|h| - 1]), h[|h| - 1];
    KeysAreBounded(c, h[..|h| - 1]);
    var t := Enter(s, call.key);
    assert OrderOk(t);
    var q := Expire(t.events[call.key], call.now, c.window);
    if |q| < c.limit { EvictOrder(t.(events := t.events[call.key := q + [call.now]]), c.maxKeys); }
  }

  function KeysOf(h: seq<Call>): set<Key> { set i | 0 <= i < |h| :: h[i].key }

  lemma {:induction false} DistinctFits(s: seq<Key>, keys: set<Key>)
    requires forall i, j :: 0 <= i < j < |s| ==> s[i] != s[j]
    requires forall i :: 0 <= i < |s| ==> s[i] in keys
    ensures |s| <= |keys|
  {
    if s != [] { DistinctFits(s[1..], keys - {s[0]}); }
  }

  /** While no more than `maxKeys` keys call, no key is ever dropped. */
  lemma {:induction false} FewKeysAreKept(c: Config, h: seq<Call>, keys: set<Key>)
    requires c.limit >= 1 && KeysOf(h) <= keys && |keys| <= c.maxKeys
    ensures forall k :: k in After(c, h).events <==> k in KeysOf(h)
    ensures forall k :: Dropped(c, h, k) == []
    decreases |h|
  {
    if h == [] { return; }
    var before, call := h[..|h| - 1], h[|h| - 1];
    assert KeysOf(h) == KeysOf(before) + {call.key};
    FewKeysAreKept(c, before, keys);
    KeysAreBounded(c, before);
    var t := Enter(After(c, before), call.key);
    assert OrderOk(t);
    forall i | 0 <= i < |t.order| ensures t.order[i] in keys { assert t.order[i] in t.events; }
    DistinctFits(t.order, keys);
    forall k ensures k in After(c, h).events <==> k in KeysOf(h) {}
    forall k ensures Dropped(c, h, k) == [] { assert Dropped(c, before, k) == []; }
  }

  /** So then every call is judged by the whole history of its key. */
  lemma FewKeysCountAll(c: Config, h: seq<Call>, keys: set<Key>, call: Call)
    requires c.limit >= 1 && KeysOf(h) <= keys && |keys| <= c.maxKeys && ClockOk(h, call.now)
    ensures Admit(c, After(c, h), call).allowed <==> InWindow(Allowed(c, h, call.key), call.now, c.window) < c.limit
  {
    FewKeysAreKept(c, h, keys);
    KeptKeyCountsAll(c, h, call);
  }

  // ----- when the limit holds -----------------------------------------------------------

  function Zeros(n: nat): seq<real> { if n == 0 then [] else Zeros(n - 1) + [0.0] }

  /** Every call is made at the instant zero. */
  predicate AtOnce(h: seq<Call>) { forall i :: 0 <= i < |h| ==> h[i].now == 0.0 }

  lemma {:induction false} AtOnceIsTimely(h: seq<Call>)
    requires AtOnce(h)
    ensures ClockOk(h, 0.0)
  {
    if h != [] { AtOnceIsTimely(h[..|h| - 1]); }
  }

  /** Calls of the keys, all at the instant zero, were added. */
  predicate Extends(h: seq<Call>, g: seq<Call>, keys: set<Key>) { AtOnce(g) && KeysOf(g) <= KeysOf(h) + keys }

  lemma OneMoreExtends(h: seq<Call>, g: seq<Call>, key: Key, keys: set<Key>)
    requires Extends(h, g, keys)
    ensures Extends(h, g + [Call(key, 0.0)], keys + {key})
  {
    assert KeysOf(g + [Call(key, 0.0)]) <= KeysOf(g) + {key};
  }

  lemma {:induction false} CountIsSmall(a: seq<real>, now: real, window: real)
    ensures InWindow(a, now, window) <= |a|
  {
    if a != [] { CountIsSmall(a[..|a| - 1], now, window); }
  }

  lemma {:induction false} ZerosCount(n: nat, window: real)
    requires window >= 0.0
    ensures Within(Zeros(n), 0.0, window) == n
  {
    if n > 0 {
      ZerosCount(n - 1, window);
      WithinAppend(Zeros(n - 1), 0.0, 0.0, window);
    }
  }

  /** A key with fewer than `limit` remembered calls gets one more through. */
  lemma RoomIsUsed(c: Config, h: seq<Call>, call: Call)
    requires ClockOk(h, call.now) && |Since(c, h, call.key)| < c.limit
    ensures Admit(c, After(c, h), call).allowed
  {
    CountIsSmall(Since(c, h, call.key), call.now, c.window);
    AllowCountsKept(c, h, call);
  }

  /** The order of the keys once a new one has come in. */
  function Joined(c: Config, order: seq<Key>, key: Key): seq<Key> {
    var all := order + [key];
    if |all| <= c.maxKeys then all else all[|all| - c.maxKeys..]
  }

  lemma JoinedIsLast(c: Config, order: seq<Key>, key: Key)
    requires c.maxKeys >= 1
    ensures var o := Joined(c, order, key); o != [] && o[|o| - 1] == key
  {
  }

  lemma OrderAfter(c: Config, s: Limiter, call: Call)
    requires OrderOk(s) && |s.order| <= c.maxKeys && Admit(c, s, call).allowed
    ensures Admit(c, s, call).state.order == if call.key in s.order then s.order else Joined(c, s.order, call.key)
  {
  }

  lemma EnteredWhen(s: Limiter, t: Limiter, key: Key, k: Key)
    requires OrderOk(s) && OrderOk(t)
    ensures (k in Enter(s, key).events && k !in t.events) == ((k in s.order || k == key) && k !in t.order)
  {
  }

  /** What an accepted call does to the order of the keys and to the track of
      one. */
  lemma CallDoes(c: Config, h: seq<Call>, call: Call, key: Key)
    requires c.limit >= 1 && Admit(c, After(c, h), call).allowed
    ensures var o, p := After(c, h).order, After(c, h + [call]).order;
            && p == (if call.key in o then o else Joined(c, o, call.key))
            && TrackOf(c, h + [call], key) ==
               NextTrack(TrackOf(c, h, key), call.now, call.key == key, (key in o || key == call.key) && key !in p)
  {
    KeysAreBounded(c, h);
    KeysAreBounded(c, h + [call]);
    OneMoreCall(c, h, call, key);
    OrderAfter(c, After(c, h), call);
    EnteredWhen(After(c, h), After(c, h + [call]), call.key, key);
  }

  /** Nothing is remembered of a key that is not there. */
  lemma AbsentIsLetIn(c: Config, h: seq<Call>, key: Key)
    requires c.limit >= 1 && AtOnce(h) && key !in After(c, h).order
    ensures Since(c, h, key) == [] && Admit(c, After(c, h), Call(key, 0.0)).allowed
  {
    AtOnceIsTimely(h);
    KeysAreBounded(c, h);
    LimiterMatches(c, h, key, 0.0);
    RoomIsUsed(c, h, Call(key, 0.0));
  }

  /** With no room for keys, nothing is remembered and every call gets through. */
  predicate Unlimited(c: Config, h: seq<Call>, key: Key, n: nat) {
    After(c, h).order == [] && TrackOf(c, h, key) == Track(Zeros(n), Zeros(n), [])
  }

  lemma UnlimitedGoesOn(c: Config, h: seq<Call>, key: Key, n: nat)
    requires c.limit >= 1 && c.maxKeys == 0 && AtOnce(h) && Unlimited(c, h, key, n)
    ensures Unlimited(c, h + [Call(key, 0.0)], key, n + 1)
  {
    AbsentIsLetIn(c, h, key);
    CallDoes(c, h, Call(key, 0.0), key);
  }

  lemma {:induction false} NoRoomNoLimit(c: Config, key: Key, n: nat) returns (g: seq<Call>)
    requires c.limit >= 1 && c.maxKeys == 0
    ensures Extends([], g, {key}) && Unlimited(c, g, key, n)
    decreases n
  {
    if n == 0 { return []; }
    var before := NoRoomNoLimit(c, key, n - 1);
    UnlimitedGoesOn(c, before, key, n - 1);
    OneMoreExtends([], before, key, {key});
    g := before + [Call(key, 0.0)];
  }

  /** A key that is not there comes in at the end, with nothing remembered. */
  lemma EntersLast(c: Config, h: seq<Call>, key: Key)
    requires c.limit >= 1 && c.maxKeys >= 1 && AtOnce(h) && key !in After(c, h).order
    ensures var g, t := h + [Call(key, 0.0)], TrackOf(c, h, key);
            && After(c, g).order == Joined(c, After(c, h).order, key) && key in After(c, g).order
            && TrackOf(c, g, key) == Track(t.allowed + [0.0], t.dropped, [0.0])
  {
    AbsentIsLetIn(c, h, key);
    CallDoes(c, h, Call(key, 0.0), key);
    JoinedIsLast(c, After(c, h).order, key);
  }

  /** A key that is there stays, while it has room. */
  lemma StaysIn(c: Config, h: seq<Call>, key: Key)
    requires c.limit >= 1 && AtOnce(h) && key in After(c, h).order && |Since(c, h, key)| < c.limit
    ensures var g, t := h + [Call(key, 0.0)], TrackOf(c, h, key);
            && After(c, g).order == After(c, h).order
            && TrackOf(c, g, key) == Track(t.allowed + [0.0], t.dropped, t.since + [0.0])
  {
    AtOnceIsTimely(h);
    RoomIsUsed(c, h, Call(key, 0.0));
    CallDoes(c, h, Call(key, 0.0), key);
  }

  /** The keys stand in this order, and since it came in with the track `t` the
      key got `n` calls through. */
  predicate Filled(c: Config, g: seq<Call>, key: Key, order: seq<Key>, t: Track, n: nat) {
    && After(c, g).order == order && key in order
    && TrackOf(c, g, key) == Track(t.allowed + Zeros(n), t.dropped, Zeros(n))
  }

  lemma FillingStarts(c: Config, h: seq<Call>, key: Key)
    requires c.limit >= 1 && c.maxKeys >= 1 && AtOnce(h) && key !in After(c, h).order
    ensures Filled(c, h + [Call(key, 0.0)], key, Joined(c, After(c, h).order, key), TrackOf(c, h, key), 1)
  {
    EntersLast(c, h, key);
    assert Zeros(1) == [0.0];
  }

  lemma FillingGoesOn(c: Config, g: seq<Call>, key: Key, order: seq<Key>, t: Track, n: nat)
    requires n < c.limit && AtOnce(g) && Filled(c, g, key, order, t, n)
    ensures Filled(c, g + [Call(key, 0.0)], key, order, t, n + 1)
  {
    ZerosLength(n);
    StaysIn(c, g, key);
    assert t.allowed + Zeros(n) + [0.0] == t.allowed + Zeros(n + 1);
  }

  lemma {:induction false} FillFurther(c: Config, h: seq<Call>, key: Key, order: seq<Key>, t: Track, n: nat)
    returns (g: seq<Call>)
    requires 1 <= n <= c.limit && AtOnce(h) && Filled(c, h, key, order, t, 1)
    ensures Extends(h, g, {key}) && Filled(c, g, key, order, t, n)
    decreases n
  {
    if n == 1 { return h; }
    var before := FillFurther(c, h, key, order, t, n - 1);
    FillingGoesOn(c, before, key, order, t, n - 1);
    OneMoreExtends(h, before, key, {key});
    g := before + [Call(key, 0.0)];
  }

  /** So `limit` calls of a key that is not there all get through. */
  lemma Fill(c: Config, h: seq<Call>, key: Key) returns (g: seq<Call>)
    requires c.limit >= 1 && c.maxKeys >= 1 && AtOnce(h) && key !in After(c, h).order
    ensures Extends(h, g, {key})
    ensures Filled(c, g, key, Joined(c, After(c, h).order, key), TrackOf(c, h, key), c.limit)
  {
    FillingStarts(c, h, key);
    OneMoreExtends(h, h, key, {});
    g := FillFurther(c, h + [Call(key, 0.0)], key, Joined(c, After(c, h).order, key), TrackOf(c, h, key), c.limit);
  }

  lemma {:induction false} ZerosLength(n: nat)
    ensures |Zeros(n)| == n
  {
    if n > 0 { ZerosLength(n - 1); }
  }

  /** In `g`, the keys `bs` have come in since `h`, where `key` was alone; the
      last one that fits beside `maxKeys` pushes it out. */
  predicate Pushed(c: Config, h: seq<Call>, g: seq<Call>, key: Key, bs: seq<Key>) {
    var t := TrackOf(c, h, key);
    if |bs| < c.maxKeys then After(c, g).order == [key] + bs && TrackOf(c, g, key) == t
    else After(c, g).order == bs && TrackOf(c, g, key) == Track(t.allowed, t.dropped + [0.0], [])
  }

  lemma PushGoesOn(c: Config, h: seq<Call>, g: seq<Call>, key: Key, bs: seq<Key>, b: Key)
    requires c.limit >= 1 && |bs| < c.maxKeys && AtOnce(g) && b !in [key] + bs && key !in bs
    requires Pushed(c, h, g, key, bs)
    ensures Pushed(c, h, g + [Call(b, 0.0)], key, bs + [b])
  {
    AbsentIsLetIn(c, g, b);
    CallDoes(c, g, Call(b, 0.0), key);
    var all := [key] + bs + [b];
    assert all == [key] + (bs + [b]);
    assert all[1..] == bs + [b];
  }

  predicate Distinct(s: seq<Key>) { forall i, j :: 0 <= i < j < |s| ==> s[i] != s[j] }

  lemma LastIsNew(bs: seq<Key>, before: seq<Key>, b: Key)
    requires Distinct(bs) && bs == before + [b]
    ensures Distinct(before) && b !in before
  {
    forall i | 0 <= i < |before| ensures before[i] != b { assert bs[i] != bs[|before|]; }
    forall i, j | 0 <= i < j < |before| ensures before[i] != before[j] { assert bs[i] != bs[j]; }
  }

  lemma {:induction false} Push(c: Config, h: seq<Call>, key: Key, bs: seq<Key>) returns (g: seq<Call>)
    requires c.limit >= 1 && |bs| <= c.maxKeys && c.maxKeys >= 1 && AtOnce(h) && After(c, h).order == [key]
    requires Distinct(bs) && key !in bs
    ensures Extends(h, g, set b | b in bs) && Pushed(c, h, g, key, bs)
    decreases |bs|
  {
    if bs == [] { return h; }
    var before, b := bs[..|bs| - 1], bs[|bs| - 1];
    assert before + [b] == bs;
    LastIsNew(bs, before, b);
    var was := Push(c, h, key, before);
    PushGoesOn(c, h, was, key, before, b);
    OneMoreExtends(h, was, b, set k | k in before);
    assert (set k | k in before) + {b} == set k | k in bs;
    g := was + [Call(b, 0.0)];
  }

  lemma OverflowStages(c: Config, a: Key, bs: seq<Key>, h1: seq<Call>, h2: seq<Call>, h3: seq<Call>, order: seq<Key>)
    requires c.limit >= 1 && c.maxKeys >= 1 && |bs| == c.maxKeys
    requires Filled(c, h1, a, [a], Track([], [], []), c.limit) && Pushed(c, h1, h2, a, bs)
    requires Filled(c, h3, a, order, TrackOf(c, h2, a), c.limit)
    ensures TrackOf(c, h3, a) == Track(Zeros(c.limit) + Zeros(c.limit), [0.0], Zeros(c.limit))
  {
    assert [] + Zeros(c.limit) == Zeros(c.limit);
    assert [] + [0.0] == [0.0];
  }

  /** A key fills its share, the others push it out, and it fills it again. */
  lemma Overflow(c: Config, a: Key, bs: seq<Key>) returns (h: seq<Call>)
    requires c.limit >= 1 && c.maxKeys >= 1 && |bs| == c.maxKeys && Distinct(bs) && a !in bs
    ensures AtOnce(h) && KeysOf(h) <= {a} + (set b | b in bs)
    ensures TrackOf(c, h, a) == Track(Zeros(c.limit) + Zeros(c.limit), [0.0], Zeros(c.limit))
  {
    var h1 := Fill(c, [], a);
    assert Joined(c, [], a) == [a];
    var h2 := Push(c, h1, a, bs);
    h := Fill(c, h2, a);
    OverflowStages(c, a, bs, h1, h2, h, Joined(c, After(c, h2).order, a));
  }

  lemma {:induction false} WithinAdds(a: seq<real>, b: seq<real>, lo: real, hi: real)
    ensures Within(a + b, lo, hi) == Within(a, lo, hi) + Within(b, lo, hi)
    decreases |b|
  {
    if b == [] {
      assert a + b == a;
    } else {
      assert (a + b)[..|a + b| - 1] == a + b[..|b| - 1];
      WithinAdds(a, b[..|b| - 1], lo, hi);
    }
  }

  /** For every configuration with room for a key, and any `maxKeys` other keys,
      there is a history in which a key is dropped once and gets twice the limit
      through in one window.  So the limit does not hold, and the bound of
      `WindowBound` cannot be lowered. */
  lemma DroppedKeyOverflows(c: Config, a: Key, bs: seq<Key>) returns (h: seq<Call>)
    requires c.limit >= 1 && c.maxKeys >= 1 && c.window >= 0.0
    requires |bs| == c.maxKeys && Distinct(bs) && a !in bs
    ensures ClockOk(h, 0.0) && KeysOf(h) <= {a} + (set b | b in bs)
    ensures Within(Dropped(c, h, a), 0.0, c.window) == 1
    ensures Within(Allowed(c, h, a), 0.0, c.window) == 2 * c.limit
  {
    h := Overflow(c, a, bs);
    AtOnceIsTimely(h);
    ZerosCount(c.limit, c.window);
    WithinAdds(Zeros(c.limit), Zeros(c.limit), 0.0, c.window);
    WithinAppend([], 0.0, 0.0, c.window);
    assert [] + [0.0] == [0.0];
  }

  ghost predicate LimitHoldsIn(c: Config, h: seq<Call>, now: real, key: Key, lo: real) {
    ClockOk(h, now) ==> Within(Allowed(c, h, key), lo, lo + c.window) <= c.limit
  }

  /** Whatever the callers among `keys` do, no window holds more than `limit`
      calls of one of them. */
  ghost predicate LimitHolds(c: Config, keys: set<Key>) {
    forall h, now, key, lo :: KeysOf(h) <= keys ==> LimitHoldsIn(c, h, now, key, lo)
  }

  lemma {:induction false} EmptyWindow(a: seq<real>, lo: real, hi: real)
    requires hi < lo
    ensures Within(a, lo, hi) == 0
  {
    if a != [] { EmptyWindow(a[..|a| - 1], lo, hi); }
  }

  lemma HoldsWhen(c: Config, keys: set<Key>, h: seq<Call>, now: real, key: Key, lo: real)
    requires c.limit == 0 || c.window < 0.0 || |keys| <= c.maxKeys
    requires KeysOf(h) <= keys && ClockOk(h, now)
    ensures Within(Allowed(c, h, key), lo, lo + c.window) <= c.limit
  {
    WindowBound(c, h, key, now, lo);
    if c.window < 0.0 { EmptyWindow(Allowed(c, h, key), lo, lo + c.window); }
    else if c.limit >= 1 { FewKeysAreKept(c, h, keys); }
  }

  lemma {:induction false} PickKeys(keys: set<Key>, n: nat) returns (s: seq<Key>)
    requires |keys| >= n
    ensures |s| == n && Distinct(s) && forall i :: 0 <= i < n ==> s[i] in keys
    decreases n
  {
    if n == 0 { return []; }
    var a :| a in keys;
    var rest := PickKeys(keys - {a}, n - 1);
    s := [a] + rest;
  }

  lemma Breaks(c: Config, h: seq<Call>, key: Key, keys: set<Key>)
    requires KeysOf(h) <= keys && ClockOk(h, 0.0) && Within(Allowed(c, h, key), 0.0, c.window) > c.limit
    ensures !LimitHolds(c, keys)
  {
    assert 0.0 + c.window == c.window;
    assert !LimitHoldsIn(c, h, 0.0, key, 0.0);
  }

  lemma UnlimitedBreaks(c: Config, h: seq<Call>, a: Key, keys: set<Key>)
    requires c.window >= 0.0 && AtOnce(h) && KeysOf(h) <= keys && Unlimited(c, h, a, c.limit + 1)
    ensures !LimitHolds(c, keys)
  {
    AtOnceIsTimely(h);
    ZerosCount(c.limit + 1, c.window);
    Breaks(c, h, a, keys);
  }

  lemma BreaksWithoutRoom(c: Config, a: Key, keys: set<Key>)
    requires c.limit >= 1 && c.maxKeys == 0 && c.window >= 0.0 && a in keys
    ensures !LimitHolds(c, keys)
  {
    var h := NoRoomNoLimit(c, a, c.limit + 1);
    UnlimitedBreaks(c, h, a, keys);
  }

  lemma BreaksWithRoom(c: Config, a: Key, bs: seq<Key>, keys: set<Key>)
    requires c.limit >= 1 && c.maxKeys >= 1 && c.window >= 0.0 && |bs| == c.maxKeys && Distinct(bs) && a !in bs
    requires a in keys && forall b :: b in bs ==> b in keys
    ensures !LimitHolds(c, keys)
  {
    var h := DroppedKeyOverflows(c, a, bs);
    Breaks(c, h, a, keys);
  }

  /** The limit holds for all histories of a set of callers if and only if there
      is room for every one of them (or nothing is ever admitted, or the window is
      empty). */
  lemma LimitHoldsExactly(c: Config, keys: set<Key>)
    ensures LimitHolds(c, keys) <==> c.limit == 0 || c.window < 0.0 || |keys| <= c.maxKeys
  {
    if c.limit == 0 || c.window < 0.0 || |keys| <= c.maxKeys {
      forall h, now, key, lo | KeysOf(h) <= keys ensures LimitHoldsIn(c, h, now, key, lo) {
        if ClockOk(h, now) { HoldsWhen(c, keys, h, now, key, lo); }
      }
    } else {
      var s := PickKeys(keys, c.maxKeys + 1);
      if c.maxKeys == 0 { BreaksWithoutRoom(c, s[0], keys); } else { BreaksWithRoom(c, s[0], s[1..], keys); }
    }
  }

  // ----- the limiter as an object ---------------------------------------------------------

  class SlidingWindow {
    const config: Config
    var order: seq<Key>
    var events: map<Key, seq<real>>
    ghost var history: seq<Call>

    ghost function State(): Limiter
      reads this
    {
      Limiter(order, events)
    }

    ghost predicate Valid()
      reads this
    {
      State() == After(config, history)
    }

    constructor (c: Config)
      ensures Valid() && config == c && history == []
    {
      config := c;
      order, events, history := [], map[], [];
    }

    method Allow(key: Key, now: real) returns (ok: bool)
      requires Valid()
      modifies this
      ensures Valid() && history == old(history) + [Call(key, now)]
      ensures ok == LetThrough(config, history)
      ensures ClockOk(old(history), now) ==>
                (ok <==> InWindow(Since(config, old(history), key), now, config.window) < config.limit)
      ensures ClockOk(old(history), now)
              && (var d := Dropped(config, old(history), key); d == [] || now - d[|d| - 1] > config.window) ==>
                (ok <==> InWindow(Allowed(config, old(history), key), now, config.window) < config.limit)
      ensures config.limit >= 1 ==> |order| <= config.maxKeys
    {
      ghost var call := Call(key, now);
      if ClockOk(history, now) {
        AllowCountsKept(config, history, call);
        if (var d := Dropped(config, history, key); d == [] || now - d[|d| - 1] > config.window) {
          KeptKeyCountsAll(config, history, call);
        }
      }
      ok := Decide(key, now);
      Record(call);
    }

    method Decide(key: Key, now: real) returns (ok: bool)
      modifies this`order, this`events
      ensures Verdict(State(), ok) == Admit(config, old(State()), Call(key, now))
    {
      if key !in events { order, events := order + [key], events[key := []]; }
      var q := Remaining(events[key], now);
      ok := |q| < config.limit;
      if ok {
        events := events[key := q + [now]];
        DropOldest();
      } else {
        events := events[key := q];
      }
    }

    /** Takes instants off the front while they are out of the window. */
    method Remaining(queue: seq<real>, now: real) returns (q: seq<real>)
      ensures q == Expire(queue, now, config.window)
    {
      q := queue;
      while q != [] && now - q[0] > config.window
        invariant Expire(q, now, config.window) == Expire(queue, now, config.window)
        decreases |q|
      {
        q := q[1..];
      }
    }

    method DropOldest()
      modifies this`order, this`events
      ensures State() == Evict(old(State()), config.maxKeys)
    {
      if |order| <= config.maxKeys { return; }
      var n, i := |order| - config.maxKeys, 0;
      while i < n
        invariant 0 <= i <= n && order == old(order)
        invariant events == old(events) - (set k | k in old(order)[..i])
      {
        events := events - {order[i]};
        assert order[..i + 1] == order[..i] + [order[i]];
        i := i + 1;
      }
      order := order[n..];
    }

    ghost method Record(call: Call)
      requires State() == Admit(config, After(config, history), call).state
      modifies this`history
      ensures history == old(history) + [call] && Valid()
      ensures config.limit >= 1 ==> |order| <= config.maxKeys
    {
      history := history + [call];
      assert history[..|history| - 1] == old(history);
      if config.limit >= 1 { KeysAreBounded(config, history); }
    }
  }
}
