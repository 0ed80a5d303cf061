/** Owner authentication with back-off and lockout
    (control_plane/owner_auth.py), and the bound it puts on guessing. */
module OwnerAuth {
  import opened Types

  datatype Config = Config(limit: nat, lockout: nat, lifetime: nat) {
    predicate Valid() { limit >= 1 && lockout >= 1 && lifetime >= 1 }
  }

  datatype Reason = Accepted | Rejected | Cooldown | Locked

  datatype Attempt = Attempt(reason: Reason, retryAfter: int, principalUntil: Option<Time>)

  datatype Guard = Guard(failures: nat, cooldownUntil: Option<Time>, lockedUntil: Option<Time>)

  const Fresh := Guard(0, None, None)

  function Power2(n: nat): (p: nat)
    ensures p >= 1
  {
    if n == 0 then 1 else 2 * Power2(n - 1)
  }

  /** Seconds that must pass after the i-th consecutive failure. */
  function Delay(c: Config, i: nat): nat
    requires i >= 1
  {
    if i >= c.limit then c.lockout else if Power2(i - 1) < 30 then Power2(i - 1) else 30
  }

  /** Below the failure limit the delays double from one second, up to half a
      minute. */
  lemma DelaysDouble(c: Config, i: nat)
    requires 1 <= i < c.limit
    ensures Delay(c, 1) == 1
    ensures i + 1 < c.limit ==> Delay(c, i + 1) == if 2 * Delay(c, i) < 30 then 2 * Delay(c, i) else 30
  {
  }

  predicate Waiting(until: Option<Time>, now: Time) { until.Some? && now < until.value }

  /** The secret is checked only outside a lock and outside a cooldown. */
  predicate Consults(g: Guard, now: Time) { !Waiting(g.lockedUntil, now) && !Waiting(g.cooldownUntil, now) }

  function Next(c: Config, g: Guard, now: Time, good: bool): Guard {
    if !Consults(g, now) then g
    else if good then Fresh
    else if g.failures + 1 >= c.limit then Guard(g.failures + 1, None, Some(now + c.lockout))
    else g.(failures := g.failures + 1, cooldownUntil := Some(now + Delay(c, g.failures + 1)))
  }

  // ----- histories ------------------------------------------------------------

  /** One call, with what the verifier would say about the secret. */
  datatype Call = Call(now: Time, good: bool)

  function After(c: Config, h: seq<Call>): Guard {
    if h == [] then Fresh else Next(c, After(c, h[..|h| - 1]), h[|h| - 1].now, h[|h| - 1].good)
  }

  /** Instants of the failed checks since the last successful one, told from the
      calls alone: a call reaches the verifier only when the previous failed
      check is its whole delay ago. */
  function Streak(c: Config, h: seq<Call>): seq<Time> {
    if h == [] then [] else
    var before, call := Streak(c, h[..|h| - 1]), h[|h| - 1];
    if before != [] && call.now < before[|before| - 1] + Delay(c, |before|) then before
    else if call.good then [] else before + [call.now]
  }

  /** The guard is exactly a summary of the streak. */
  ghost predicate Summary(c: Config, g: Guard, f: seq<Time>) {
    && g.failures == |f|
    && (f == [] ==> g == Fresh)
    && (f != [] && |f| < c.limit ==> g.cooldownUntil == Some(f[|f| - 1] + Delay(c, |f|)) && g.lockedUntil == None)
    && (f != [] && |f| >= c.limit ==> g.lockedUntil == Some(f[|f| - 1] + Delay(c, |f|)) && g.cooldownUntil == None)
  }

  lemma {:induction false} GuardSummarizes(c: Config, h: seq<Call>)
    requires c.Valid()
    ensures Summary(c, After(c, h), Streak(c, h))
  {
    if h == [] { return; }
    GuardSummarizes(c, h[..|h| - 1]);
  }

  /** The verifier is consulted exactly when the last failed check, if any, is
      its whole delay ago; in particular never during a cooldown or a lock. */
  lemma ConsultsAfterDelay(c: Config, h: seq<Call>, now: Time)
    requires c.Valid()
    ensures var f := Streak(c, h);
            Consults(After(c, h), now) <==> f == [] || now >= f[|f| - 1] + Delay(c, |f|)
  {
    GuardSummarizes(c, h);
  }

  function TotalDelay(c: Config, k: nat): nat {
    if k == 0 then 0 else TotalDelay(c, k - 1) + Delay(c, k)
  }

  ghost predicate Spaced(c: Config, f: seq<Time>) {
    forall i {:trigger f[i]} :: 0 < i < |f| ==> f[i] >= f[i - 1] + Delay(c, i)
  }

  lemma {:induction false} StreakIsSpaced(c: Config, h: seq<Call>)
    ensures Spaced(c, Streak(c, h))
  {
    if h == [] { return; }
    StreakIsSpaced(c, h[..|h| - 1]);
    var before, f := Streak(c, h[..|h| - 1]), Streak(c, h);
    forall i | 0 < i < |f| ensures f[i] >= f[i - 1] + Delay(c, i) {
      assert f[i - 1] == before[i - 1];
      if i < |before| { assert f[i] == before[i]; }
    }
  }

  lemma {:induction false} SpacedSums(c: Config, f: seq<Time>, k: nat)
    requires k < |f| && Spaced(c, f)
    ensures f[k] >= f[0] + TotalDelay(c, k)
    decreases k
  {
    if k > 0 { SpacedSums(c, f, k - 1); }
  }

  /** Guess-rate bound: in any sequence of calls, whatever its clock, the
      (k+1)-th consecutive failed check comes at least the sum of the first k
      delays after the first one. */
  lemma GuessRateBound(c: Config, h: seq<Call>, k: nat)
    requires c.Valid() && k < |Streak(c, h)|
    ensures Streak(c, h)[k] >= Streak(c, h)[0] + TotalDelay(c, k)
    ensures After(c, h).failures == |Streak(c, h)|
  {
    GuardSummarizes(c, h);
    StreakIsSpaced(c, h);
    SpacedSums(c, Streak(c, h), k);
  }

  /** From the failure limit on every guess costs a full lockout. */
  lemma {:induction false} LockoutRate(c: Config, k: nat)
    requires c.Valid() && k + 1 >= c.limit
    ensures TotalDelay(c, k) == TotalDelay(c, c.limit - 1) + (k + 1 - c.limit) * c.lockout
    decreases k
  {
    if k + 1 > c.limit {
      LockoutRate(c, k - 1);
      calc {
        (k - c.limit) * c.lockout + c.lockout;
        (k + 1 - c.limit) * c.lockout;
      }
    }
  }

  /** The shipped configuration: five failures, a minute of lockout. */
  lemma DefaultRate(h: seq<Call>, k: nat)
    requires var c := Config(5, 60, 1800); 4 <= k < |Streak(c, h)|
    ensures var c := Config(5, 60, 1800); Streak(c, h)[k] >= Streak(c, h)[0] + 15 + 60 * (k - 4)
  {
    var c := Config(5, 60, 1800);
    GuessRateBound(c, h, k);
    LockoutRate(c, k);
    assert Power2(0) == 1 && Power2(1) == 2 && Power2(2) == 4 && Power2(3) == 8;
    assert TotalDelay(c, 1) == 1 && TotalDelay(c, 2) == 3 && TotalDelay(c, 3) == 7 && TotalDelay(c, 4) == 15;
  }

  // ----- the authenticator --------------------------------------------------------

  class OwnerAuthenticator {
    const config: Config
    const verify: string -> bool
    var failures: nat
    var cooldownUntil: Option<Time>
    var lockedUntil: Option<Time>
    ghost var history: seq<Call>

    ghost function State(): Guard
      reads this
    {
      Guard(failures, cooldownUntil, lockedUntil)
    }

    ghost predicate Valid()
      reads this
    {
      config.Valid() && State() == After(config, history)
    }

    constructor (c: Config, v: string -> bool)
      requires c.Valid()
      ensures Valid() && config == c && verify == v && history == []
    {
      config, verify := c, v;
      failures, cooldownUntil, lockedUntil, history := 0, None, None, [];
    }

    static function Remaining(until: Time, now: Time): int { if until - now < 1 then 1 else until - now }

    method Authenticate(secret: string, now: Time) returns (r: Attempt)
      requires Valid()
      modifies this
      ensures Valid() && history == old(history) + [Call(now, verify(secret))]
      ensures State() == Next(config, old(State()), now, verify(secret))
      ensures r.reason == Accepted <==> Consults(old(State()), now) && verify(secret)
      ensures r.reason == Accepted ==> r.principalUntil == Some(now + config.lifetime)
      ensures r.reason == Rejected ==>
                Consults(old(State()), now) && failures < config.limit && r.retryAfter == Delay(config, failures)
      ensures !Consults(old(State()), now) ==> State() == old(State()) && (r.reason == Locked || r.reason == Cooldown)
      ensures r.reason != Accepted ==> r.retryAfter >= 1 && r.principalUntil == None
      ensures Waiting(old(lockedUntil), now) ==>
                r.reason == Locked && (r.retryAfter == old(lockedUntil).value - now || r.retryAfter == 1)
      ensures !Waiting(old(lockedUntil), now) && Waiting(old(cooldownUntil), now) ==>
                r.reason == Cooldown && (r.retryAfter == old(cooldownUntil).value - now || r.retryAfter == 1)
      ensures Consults(old(State()), now) && !verify(secret) ==>
                (r.reason == Locked <==> old(failures) + 1 >= config.limit)
                && (r.reason == Locked ==> r.retryAfter == config.lockout && lockedUntil == Some(now + config.lockout))
    {
      ghost var before := history;
      history := history + [Call(now, verify(secret))];
      assert history[..|history| - 1] == before;
      if lockedUntil.Some? && now < lockedUntil.value {
        return Attempt(Locked, Remaining(lockedUntil.value, now), None);
      }
      if cooldownUntil.Some? && now < cooldownUntil.value {
        return Attempt(Cooldown, Remaining(cooldownUntil.value, now), None);
      }
      if verify(secret) {
        failures, cooldownUntil, lockedUntil := 0, None, None;
        return Attempt(Accepted, 0, Some(now + config.lifetime));
      }
      failures := failures + 1;
      if failures >= config.limit {
        lockedUntil, cooldownUntil := Some(now + config.lockout), None;
        return Attempt(Locked, config.lockout, None);
      }
      var wait := if Power2(failures - 1) < 30 then Power2(failures - 1) else 30;
      cooldownUntil := Some(now + wait);
      r := Attempt(Rejected, wait, None);
    }
  }
}
