/** Owner sessions (control_plane/session.py): the in-memory store and the
    replay of its log that it implements. */
module Session {
  import opened Types

  type SessionId = nat

  datatype Principal = Principal(subject: Subject, verified: bool, expiresAt: Time) {
    predicate IsUsable(now: Time) { verified && now < expiresAt }
  }

  datatype Config = Config(lifetime: nat, inactivity: nat) {
    predicate Valid() { lifetime >= 1 && inactivity >= 1 }
  }

  datatype Session = Session(
    principal: Principal, epoch: nat, createdAt: Time, lastSeenAt: Time, expiresAt: Time, inactiveAt: Time)
  {
    predicate IsActive(now: Time) {
      epoch >= 1 && principal.IsUsable(now) && now < expiresAt && now < inactiveAt
    }
  }

  datatype Store = Store(sessions: map<SessionId, Session>, epoch: nat)

  function Min(a: Time, b: Time): Time { if a < b then a else b }

  function Opened(c: Config, epoch: nat, p: Principal, now: Time): Session {
    Session(p, epoch, now, now, now + c.lifetime, now + c.inactivity)
  }

  predicate Usable(s: Store, id: SessionId, now: Time) {
    id in s.sessions && s.sessions[id].epoch == s.epoch && s.sessions[id].IsActive(now)
  }

  function Touch(c: Config, s: Store, id: SessionId, now: Time): Store {
    if id !in s.sessions then s
    else if !Usable(s, id, now) then s.(sessions := s.sessions - {id})
    else
      var x := s.sessions[id];
      s.(sessions := s.sessions[id := x.(lastSeenAt := now, inactiveAt := Min(x.expiresAt, now + c.inactivity))])
  }

  /** Session ids are random, so the caller of the model supplies them. */
  datatype Op =
    | Create(id: SessionId, principal: Principal, now: Time)
    | Get(id: SessionId, now: Time)
    | Revoke(id: SessionId)
    | RevokeAll
    | Rotate(id: SessionId, next: SessionId, now: Time)
    | RotateEpoch

  function Apply(c: Config, s: Store, op: Op): Store {
    match op
    case Create(id, p, now) => s.(sessions := s.sessions[id := Opened(c, s.epoch, p, now)])
    case Get(id, now) => Touch(c, s, id, now)
    case Revoke(id) => s.(sessions := s.sessions - {id})
    case RevokeAll => s.(sessions := map[])
    case Rotate(id, next, now) =>
      if Usable(s, id, now)
      then s.(sessions := (s.sessions - {id})[next := Opened(c, s.epoch, s.sessions[id].principal, now)])
      else s.(sessions := s.sessions - {id})
    case RotateEpoch => Store(map[], s.epoch + 1)
  }

  function StoreAfter(c: Config, log: seq<Op>): Store {
    if log == [] then Store(map[], 1) else Apply(c, StoreAfter(c, log[..|log| - 1]), log[|log| - 1])
  }

  // ----- replay of the log --------------------------------------------------------

  /** What the log says about a session: whose it is, when it was issued, and
      when it was last used successfully. */
  datatype Facts = Facts(principal: Principal, issuedAt: Time, lastUse: Time)

  /** `Known(log, id)` is None for ids never issued, revoked since, or issued
      under an earlier epoch.  Expiry plays no part in it: it is judged at the
      instant of a question, by `Live`. */
  function Known(c: Config, log: seq<Op>, id: SessionId): Option<Facts>
    decreases |log|, 0
  {
    if log == [] then None else
    var before, op := log[..|log| - 1], log[|log| - 1];
    var known := Known(c, before, id);
    match op
    case Create(x, p, now) => if x == id then Some(Facts(p, now, now)) else known
    case Get(x, now) => if x == id && Live(c, before, id, now) then Some(known.value.(lastUse := now)) else known
    case Revoke(x) => if x == id then None else known
    case RevokeAll => None
    case Rotate(x, next, now) =>
      if !Live(c, before, x, now) then known
      else if next == id then Some(Facts(Known(c, before, x).value.principal, now, now))
      else if x == id then None else known
    case RotateEpoch => None
  }

  /** Issued under the current epoch and not revoked, within its lifetime,
      within the inactivity timeout of its last use, for a usable principal. */
  predicate Live(c: Config, log: seq<Op>, id: SessionId, now: Time)
    ensures Live(c, log, id, now) ==> Known(c, log, id).Some?
    decreases |log|, 1
  {
    var k := Known(c, log, id);
    && k.Some? && now < k.value.issuedAt + c.lifetime && now < k.value.lastUse + c.inactivity
    && k.value.principal.IsUsable(now)
  }

  // ----- refinement ------------------------------------------------------------------

  function TimeOf(op: Op): Option<Time> {
    match op
    case Create(_, _, now) => Some(now)
    case Get(_, now) => Some(now)
    case Rotate(_, _, now) => Some(now)
    case _ => None
  }

  /** The clock never goes back, and stands at `now` at the latest. */
  predicate ClockOk(log: seq<Op>, now: Time) {
    log == [] ||
    (var t := TimeOf(log[|log| - 1]);
     (t.Some? ==> t.value <= now) && ClockOk(log[..|log| - 1], if t.Some? then t.value else now))
  }

  /** The store holds what the log knows, minus sessions that are past use. */
  ghost predicate Matches(c: Config, s: Store, log: seq<Op>, id: SessionId, now: Time) {
    var k := Known(c, log, id);
    if id in s.sessions then
      && k.Some? && s.sessions[id].epoch == s.epoch && s.epoch >= 1
      && s.sessions[id].principal == k.value.principal
      && s.sessions[id].createdAt == k.value.issuedAt
      && s.sessions[id].expiresAt == k.value.issuedAt + c.lifetime
      && s.sessions[id].lastSeenAt == k.value.lastUse
      && Min(s.sessions[id].expiresAt, s.sessions[id].inactiveAt)
         == Min(k.value.issuedAt + c.lifetime, k.value.lastUse + c.inactivity)
    else !Live(c, log, id, now)
  }

  lemma MatchesMeansSame(c: Config, s: Store, log: seq<Op>, id: SessionId, now: Time)
    requires Matches(c, s, log, id, now)
    ensures Usable(s, id, now) <==> Live(c, log, id, now)
  {
  }

  lemma {:induction false} StoreMatches(c: Config, log: seq<Op>, id: SessionId, now: Time)
    requires c.Valid() && ClockOk(log, now)
    ensures Matches(c, StoreAfter(c, log), log, id, now) && StoreAfter(c, log).epoch >= 1
    decreases |log|
  {
    if log == [] { return; }
    var before, op := log[..|log| - 1], log[|log| - 1];
    var t := if TimeOf(op).Some? then TimeOf(op).value else now;
    var s := StoreAfter(c, before);
    StoreMatches(c, before, id, t);
    match op
    case Get(x, at) => MatchesMeansSame(c, s, before, id, t);
    case Rotate(x, next, at) =>
      StoreMatches(c, before, x, t);
      MatchesMeansSame(c, s, before, x, t);
    case _ =>
  }

  /** Under a clock that never goes back, a session is usable exactly when the
      replay of the log says it is live. */
  lemma StoreRefinesReplay(c: Config, log: seq<Op>, id: SessionId, now: Time)
    requires c.Valid() && ClockOk(log, now)
    ensures Usable(StoreAfter(c, log), id, now) <==> Live(c, log, id, now)
  {
    StoreMatches(c, log, id, now);
    MatchesMeansSame(c, StoreAfter(c, log), log, id, now);
  }

  /** Ids the log ever issued. */
  function Issued(log: seq<Op>): set<SessionId> {
    if log == [] then {} else
    Issued(log[..|log| - 1]) +
    (match log[|log| - 1] case Create(id, _, _) => {id} case Rotate(_, next, _) => {next} case _ => {})
  }

  lemma {:induction false} KnownIsIssued(c: Config, log: seq<Op>, id: SessionId)
    requires Known(c, log, id).Some?
    ensures id in Issued(log)
    decreases |log|
  {
    if Known(c, log[..|log| - 1], id).Some? { KnownIsIssued(c, log[..|log| - 1], id); }
  }

  function LiveIds(c: Config, log: seq<Op>, now: Time): set<SessionId> {
    set id | id in Issued(log) && Live(c, log, id, now)
  }

  function UsableIds(s: Store, now: Time): set<SessionId> { set id | id in s.sessions && Usable(s, id, now) }

  /** The sessions that are counted are exactly the live ones. */
  lemma CountIsExact(c: Config, log: seq<Op>, now: Time)
    requires c.Valid() && ClockOk(log, now)
    ensures UsableIds(StoreAfter(c, log), now) == LiveIds(c, log, now)
    ensures forall id :: id in LiveIds(c, log, now) <==> Live(c, log, id, now)
  {
    forall id ensures Usable(StoreAfter(c, log), id, now) <==> Live(c, log, id, now) {
      StoreRefinesReplay(c, log, id, now);
    }
    forall id | Live(c, log, id, now) ensures id in Issued(log) { KnownIsIssued(c, log, id); }
  }

  /** The login a session descends from, through any number of rotations. */
  function Login(c: Config, log: seq<Op>, id: SessionId): Option<nat> {
    if log == [] then None else
    var before, n := log[..|log| - 1], |log| - 1;
    match log[n]
    case Create(x, _, _) => if x == id then Some(n) else Login(c, before, id)
    case Rotate(x, next, now) =>
      if Live(c, before, x, now) && next == id then Login(c, before, x) else Login(c, before, id)
    case _ => Login(c, before, id)
  }

  lemma {:induction false} LoginHasPrincipal(c: Config, log: seq<Op>, id: SessionId)
    requires Known(c, log, id).Some?
    ensures var i := Login(c, log, id);
            && i.Some? && i.value < |log| && log[i.value].Create?
            && log[i.value].principal == Known(c, log, id).value.principal
    decreases |log|
  {
    var before, op := log[..|log| - 1], log[|log| - 1];
    if op.Rotate? && Live(c, before, op.id, op.now) && op.next == id { LoginHasPrincipal(c, before, op.id); }
    else if Known(c, before, id).Some? { LoginHasPrincipal(c, before, id); }
  }

  /** No chain of rotations outlives the principal of the login it began with. */
  lemma RotationIsBounded(c: Config, log: seq<Op>, id: SessionId, now: Time)
    requires c.Valid() && ClockOk(log, now) && Usable(StoreAfter(c, log), id, now)
    ensures var i := Login(c, log, id);
            i.Some? && i.value < |log| && log[i.value].Create? && now < log[i.value].principal.expiresAt
  {
    StoreRefinesReplay(c, log, id, now);
    LoginHasPrincipal(c, log, id);
  }

  // ----- the store as an object ---------------------------------------------------------

  class OwnerSessionStore {
    const config: Config
    var sessions: map<SessionId, Session>
    var epoch: nat
    ghost var log: seq<Op>

    ghost function State(): Store
      reads this
    {
      Store(sessions, epoch)
    }

    ghost predicate Valid()
      reads this
    {
      config.Valid() && State() == StoreAfter(config, log)
    }

    constructor (c: Config)
      requires c.Valid()
      ensures Valid() && config == c && log == []
    {
      config := c;
      sessions, epoch, log := map[], 1, [];
    }

    /** Records what was done; only proofs read it. */
    ghost method Record(op: Op)
      modifies this`log
      ensures log == old(log) + [op] && log[..|log| - 1] == old(log)
    {
      log := log + [op];
    }

    method Create(id: SessionId, principal: Principal, now: Time) returns (s: Session)
      requires Valid()
      modifies this
      ensures Valid() && log == old(log) + [Op.Create(id, principal, now)]
      ensures id in sessions && sessions[id] == s && s.epoch == epoch == old(epoch)
    {
      s := Opened(config, epoch, principal, now);
      sessions := sessions[id := s];
      Record(Op.Create(id, principal, now));
    }

    method Get(id: SessionId, now: Time) returns (r: Option<Session>)
      requires Valid()
      modifies this
      ensures Valid() && log == old(log) + [Op.Get(id, now)]
      ensures r.Some? <==> Usable(old(State()), id, now)
      ensures r.Some? ==> id in sessions && sessions[id] == r.value && r.value.principal == old(sessions)[id].principal
      ensures r.None? ==> sessions == old(sessions) - {id}
      ensures ClockOk(old(log), now) ==> (r.Some? <==> Live(config, old(log), id, now))
    {
      if ClockOk(log, now) { StoreRefinesReplay(config, log, id, now); }
      if id !in sessions {
        r := None;
      } else if sessions[id].epoch != epoch || !sessions[id].IsActive(now) {
        sessions := sessions - {id};
        r := None;
      } else {
        var x := sessions[id];
        x := x.(lastSeenAt := now, inactiveAt := Min(x.expiresAt, now + config.inactivity));
        sessions := sessions[id := x];
        r := Some(x);
      }
      Record(Op.Get(id, now));
    }

    method Revoke(id: SessionId)
      requires Valid()
      modifies this
      ensures Valid() && log == old(log) + [Op.Revoke(id)] && sessions == old(sessions) - {id}
    {
      sessions := sessions - {id};
      Record(Op.Revoke(id));
    }

    method RevokeAll()
      requires Valid()
      modifies this
      ensures Valid() && log == old(log) + [Op.RevokeAll] && sessions == map[]
    {
      sessions := map[];
      Record(Op.RevokeAll);
      assert State() == Apply(config, StoreAfter(config, old(log)), log[|log| - 1]);
    }

    method Rotate(id: SessionId, next: SessionId, now: Time) returns (r: Option<Session>)
      requires Valid()
      modifies this
      ensures Valid() && log == old(log) + [Op.Rotate(id, next, now)]
      ensures r.Some? <==> Usable(old(State()), id, now)
      ensures r.Some? ==> r.value.principal == old(sessions)[id].principal && r.value.expiresAt == now + config.lifetime
    {
      if id !in sessions || sessions[id].epoch != epoch || !sessions[id].IsActive(now) {
        sessions := sessions - {id};
        r := None;
      } else {
        var renewed := Opened(config, epoch, sessions[id].principal, now);
        sessions := (sessions - {id})[next := renewed];
        r := Some(renewed);
      }
      Record(Op.Rotate(id, next, now));
    }

    method RotateEpoch() returns (e: nat)
      requires Valid()
      modifies this
      ensures Valid() && log == old(log) + [Op.RotateEpoch] && sessions == map[] && e == epoch == old(epoch) + 1
    {
      epoch := epoch + 1;
      sessions := map[];
      e := epoch;
      Record(Op.RotateEpoch);
    }

    method ActiveCount(now: Time) returns (n: nat)
      requires Valid()
      ensures n == |UsableIds(State(), now)|
      ensures ClockOk(log, now) ==> n == |LiveIds(config, log, now)|
    {
      if ClockOk(log, now) { CountIsExact(config, log, now); }
      n := 0;
      var rest := sessions.Keys;
      ghost var counted: set<SessionId> := {};
      while rest != {}
        invariant rest <= sessions.Keys && n == |counted|
        invariant forall id :: id in counted <==> id in sessions && id !in rest && Usable(State(), id, now)
        decreases |rest|
      {
        var id :| id in rest;
        rest := rest - {id};
        if sessions[id].epoch == epoch && sessions[id].IsActive(now) {
          n := n + 1;
          counted := counted + {id};
        }
      }
      assert counted == UsableIds(State(), now);
    }
  }
}
