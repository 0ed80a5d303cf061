/** Fail-closed kill switches with epochs (control_plane/kill_switch.py). */
module KillSwitch {
  import opened Types

  datatype SwitchState = Engaged | Disengaged | Permanent

  datatype Switch = Switch(state: SwitchState, createdAt: Time, updatedAt: Time, epoch: nat)

  /** Stored records by environment. */
  type Switches = map<Environment, Switch>

  /** A missing record is engaged, and production is engaged for good. */
  function SwitchFor(s: Switches, env: Environment): Switch {
    if env in s then s[env]
    else Switch(if env == Production then Permanent else Engaged, 0, 0, 1)
  }

  predicate Permits(s: Switches, env: Environment) {
    env == Staging && SwitchFor(s, env).state == Disengaged
  }

  /** Records can only be built this way: production is always permanent. */
  predicate WellFormed(s: Switches) {
    forall env :: env in s ==> s[env].epoch >= 1 && (env == Production ==> s[env].state == Permanent)
                               && (s[env].state == Permanent ==> env == Production)
  }

  /** Records the registry seeds an empty store with. */
  function Seeded(now: Time): (s: Switches)
    ensures WellFormed(s) && forall env :: !Permits(s, env)
  {
    map[Staging := Switch(Engaged, now, now, 1), Production := Switch(Permanent, now, now, 1)]
  }

  datatype Change = Change(engage: bool, env: Environment, now: Time)

  predicate Accepted(s: Switches, c: Change) {
    && SwitchFor(s, c.env).state != Permanent
    && c.now >= SwitchFor(s, c.env).createdAt
  }

  /** One operator verb; a refused change leaves every record alone. */
  function Apply(s: Switches, c: Change): (t: Switches)
    ensures WellFormed(s) ==> WellFormed(t)
    ensures !Accepted(s, c) ==> t == s
  {
    if !Accepted(s, c) then s else
    var previous := SwitchFor(s, c.env);
    s[c.env := Switch(if c.engage then Engaged else Disengaged, previous.createdAt, c.now, previous.epoch + 1)]
  }

  function ApplyAll(s: Switches, cs: seq<Change>): (t: Switches)
    ensures WellFormed(s) ==> WellFormed(t)
    decreases cs
  {
    if cs == [] then s else ApplyAll(Apply(s, cs[0]), cs[1..])
  }

  /** Changes of the staging switch that were carried out. */
  function Effective(s: Switches, cs: seq<Change>): nat
    decreases cs
  {
    if cs == [] then 0
    else (if Accepted(s, cs[0]) && cs[0].env == Staging then 1 else 0) + Effective(Apply(s, cs[0]), cs[1..])
  }

  /** The staging epoch is a count of the changes carried out. */
  lemma {:induction false} EpochCountsChanges(s: Switches, cs: seq<Change>)
    requires WellFormed(s)
    ensures SwitchFor(ApplyAll(s, cs), Staging).epoch == SwitchFor(s, Staging).epoch + Effective(s, cs)
    decreases cs
  {
    if cs != [] {
      EpochCountsChanges(Apply(s, cs[0]), cs[1..]);
    }
  }

  /** No ABA: an epoch seen before is seen again only if nothing happened to the
      staging switch in between, and then the whole record is the same. */
  lemma {:induction false} SameEpochSameSwitch(s: Switches, cs: seq<Change>)
    requires WellFormed(s)
    ensures SwitchFor(ApplyAll(s, cs), Staging).epoch == SwitchFor(s, Staging).epoch
            <==> Effective(s, cs) == 0
    ensures Effective(s, cs) == 0 ==> SwitchFor(ApplyAll(s, cs), Staging) == SwitchFor(s, Staging)
    decreases cs
  {
    EpochCountsChanges(s, cs);
    if cs != [] {
      SameEpochSameSwitch(Apply(s, cs[0]), cs[1..]);
    }
  }

  lemma {:induction false} ApplyAllAppend(s: Switches, cs: seq<Change>, c: Change)
    ensures ApplyAll(s, cs + [c]) == Apply(ApplyAll(s, cs), c)
    decreases cs
  {
    if cs == [] { assert cs + [c] == [c]; assert ApplyAll(Apply(s, c), []) == Apply(s, c); return; }
    assert (cs + [c])[0] == cs[0] && (cs + [c])[1..] == cs[1..] + [c];
    ApplyAllAppend(Apply(s, cs[0]), cs[1..], c);
  }

  /** The change is one of the staging switch and is carried out: records are
      never backdated before their creation, and that is the only ground on
      which a staging change is refused. */
  predicate Carried(c: Change, since: Time) { c.env == Staging && c.now >= since }

  /** The last change of the staging switch that was carried out. */
  predicate IsLast(cs: seq<Change>, since: Time, i: nat) {
    && i < |cs| && Carried(cs[i], since)
    && forall j :: i < j < |cs| ==> !Carried(cs[j], since)
  }

  /** What a staging record is after a list of changes. */
  ghost predicate Follows(s: Switch, t: Switch, cs: seq<Change>) {
    && t.createdAt == s.createdAt
    && ((forall i :: 0 <= i < |cs| ==> !Carried(cs[i], s.createdAt)) ==> t == s)
    && (forall i: nat :: IsLast(cs, s.createdAt, i) ==>
          t.state == (if cs[i].engage then Engaged else Disengaged) && t.updatedAt == cs[i].now)
  }

  lemma OneMoreFollows(s: Switch, t: Switch, cs: seq<Change>, c: Change, u: Switch)
    requires Follows(s, t, cs)
    requires u == if Carried(c, s.createdAt)
                  then Switch(if c.engage then Engaged else Disengaged, t.createdAt, c.now, t.epoch + 1) else t
    ensures Follows(s, u, cs + [c])
  {
    var more := cs + [c];
    assert more[|cs|] == c;
    assert forall i :: 0 <= i < |cs| ==> more[i] == cs[i];
    forall i: nat | IsLast(more, s.createdAt, i)
      ensures u.state == (if more[i].engage then Engaged else Disengaged) && u.updatedAt == more[i].now {
      if i < |cs| { assert !Carried(more[|cs|], s.createdAt) && IsLast(cs, s.createdAt, i); }
    }
  }

  /** Whatever was done to the switches, staging is as the last change of it that
      was carried out left it. */
  lemma {:induction false} LastChangeDecides(s: Switches, cs: seq<Change>)
    requires WellFormed(s) && Staging in s
    ensures var t := ApplyAll(s, cs); Staging in t && Follows(s[Staging], t[Staging], cs)
  {
    if cs == [] { return; }
    var before, c := cs[..|cs| - 1], cs[|cs| - 1];
    LastChangeDecides(s, before);
    assert before + [c] == cs;
    ApplyAllAppend(s, before, c);
    var t := ApplyAll(s, before);
    OneMoreFollows(s[Staging], t[Staging], before, c, Apply(t, c)[Staging]);
  }

  /** The last change of the staging switch carried out since `since` was a
      disengage. */
  ghost predicate LastOpens(cs: seq<Change>, since: Time) {
    exists i: nat :: IsLast(cs, since, i) && !cs[i].engage
  }

  lemma {:induction false} SomeIsLast(cs: seq<Change>, since: Time, n: nat) returns (i: nat)
    requires n < |cs| && Carried(cs[n], since)
    ensures IsLast(cs, since, i) && i >= n
    decreases |cs| - n
  {
    if m: nat :| n < m < |cs| && Carried(cs[m], since) { i := SomeIsLast(cs, since, m); } else { i := n; }
  }

  /** Staging permits operations if and only if the last change of its switch
      that was carried out was a disengage. */
  lemma StagingPermitsExactly(now: Time, cs: seq<Change>)
    ensures Permits(ApplyAll(Seeded(now), cs), Staging) <==> LastOpens(cs, now)
  {
    LastChangeDecides(Seeded(now), cs);
    if n: nat :| n < |cs| && Carried(cs[n], now) {
      var i := SomeIsLast(cs, now, n);
      assert cs[i].engage <==> ApplyAll(Seeded(now), cs)[Staging].state == Engaged;
      assert LastOpens(cs, now) <==> !cs[i].engage by {
        if k: nat :| IsLast(cs, now, k) && !cs[k].engage { assert k == i; }
      }
    }
  }

  /** Production never permits an operation, whatever operators do. */
  lemma ProductionNeverPermits(now: Time, cs: seq<Change>)
    ensures SwitchFor(ApplyAll(Seeded(now), cs), Production).state == Permanent
    ensures !Permits(ApplyAll(Seeded(now), cs), Production)
  {
    assert WellFormed(ApplyAll(Seeded(now), cs));
  }

  /** The record of one environment was replaced by one in the given state, one
      epoch on and as old as before; the other environment's is untouched. */
  predicate Stored(s: Switches, t: Switches, env: Environment, state: SwitchState, now: Time) {
    && env in t && t[env].state == state && t[env].updatedAt == now
    && t[env].createdAt == (if env in s then s[env].createdAt else 0)
    && t[env].epoch == (if env in s then s[env].epoch else 1) + 1
    && forall e :: e != env ==> (e in t <==> e in s) && (e in t ==> t[e] == s[e])
  }

  /** The registry: `_store` replaces whole records. */
  class KillSwitchRegistry {
    var records: Switches

    constructor (now: Time)
      ensures records == Seeded(now)
    {
      records := Seeded(now);
    }

    method Current(env: Environment) returns (s: Switch)
      ensures s == SwitchFor(records, env)
      ensures env in records ==> s == records[env]
      ensures env !in records ==> s.state != Disengaged && (s.state == Permanent <==> env == Production)
    {
      if env in records { s := records[env]; }
      else if env == Production { s := Switch(Permanent, 0, 0, 1); }
      else { s := Switch(Engaged, 0, 0, 1); }
    }

    method Engage(env: Environment, now: Time) returns (ok: bool)
      modifies this
      ensures records == Apply(old(records), Change(true, env, now))
      ensures ok == Accepted(old(records), Change(true, env, now))
      ensures ok ==> Stored(old(records), records, env, Engaged, now) && !Permits(records, env)
      ensures !ok ==> records == old(records)
    {
      var current := Current(env);
      if current.state == Permanent || now < current.createdAt { return false; }
      records := records[env := Switch(Engaged, current.createdAt, now, current.epoch + 1)];
      ok := true;
    }

    method Disengage(env: Environment, now: Time) returns (ok: bool)
      requires WellFormed(records)
      modifies this
      ensures records == Apply(old(records), Change(false, env, now))
      ensures ok == Accepted(old(records), Change(false, env, now))
      ensures ok ==> env == Staging && Stored(old(records), records, env, Disengaged, now) && Permits(records, env)
      ensures !ok ==> records == old(records)
    {
      if env == Production { return false; }
      var current := Current(env);
      if current.state == Permanent || now < current.createdAt { return false; }
      records := records[env := Switch(Disengaged, current.createdAt, now, current.epoch + 1)];
      ok := true;
    }
  }
}
