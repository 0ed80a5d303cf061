/** What every reachable state satisfies, how states evolve, and the proof
    that every event keeps both. */
module Invariant {
  import opened Types
  import opened Lifecycle
  import opened Plans
  import opened KillSwitch
  import opened Store
  import opened Gate
  import opened Executor
  import opened Service
  import opened Protocol

  // ----- vocabulary -------------------------------------------------------

  /** The requested content is durable as the revision after the authorized one. */
  ghost predicate Landed(s: State, a: Action, fields: Fields) {
    exists p :: Logged(s.log, a.target, p) && p.revision == a.planRevision + 1 && Carries(p, fields)
  }

  /** The target has moved past the revision this action could have produced. */
  predicate Overtaken(s: State, a: Action) {
    a.target in s.plans && s.plans[a.target].revision > a.planRevision + 1
  }

  /** States some caller can bring an action to.  In particular no caller ever
      reaches ExecutionFailed, RolledBack or RollbackFailed. */
  predicate Visited(a: Action) {
    var st := a.state;
    && (st.ConfirmationRequired? || st.Confirmed? || st.SnapshotCaptured? || st.Leased? || st.Running?
        || st.ExecutedPendingVerification? || st.VerifiedSuccess? || st.VerificationFailed?
        || st.ReconciliationRequired? || st.RollbackRequested?)
    && (a.operation == RollbackProjectPlan ==>
          !(st.ExecutedPendingVerification? || st.VerifiedSuccess? || st.VerificationFailed? || st.RollbackRequested?))
    && (!st.ConfirmationRequired? ==> a.approver.Some?)
    && a.version + Rank(st) <= Rank(Requested)
  }

  predicate LinkOk(actions: map<ActionId, Action>, a: Action) {
    match a.rollbackOf
    case None => a.operation == UpdateProjectPlan
    case Some(o) =>
      && a.operation == RollbackProjectPlan && o in actions
      && actions[o].operation == UpdateProjectPlan && actions[o].target == a.target && a.token == o
  }

  /** The action carries the identity and the window of its decision, and the
      authorized plan is one the store really held. */
  ghost predicate AuthorityOk(s: State, a: Action, d: Decision) {
    && a.planRevision == d.identity.targetRevision == d.identity.targetDigest.revision
    && Logged(s.log, a.target, d.identity.targetDigest)
    && a.environment == Staging
    && d.decidedAt < a.expiresAt == d.expiresAt <= d.decidedAt + DECISION_TTL && d.expiresAt <= d.planExpiresAt
    && a.IndexKey() == d.request.IndexKey()
    && (a.operation == UpdateProjectPlan ==> d.Mutation() != map[] && d.Mutation().Keys <= ALLOWED_FIELDS)
    && (a.operation == RollbackProjectPlan ==> d.Mutation() == map[])
  }

  /** One lease per action, granted when it became LEASED, always token 1. */
  predicate LeaseOk(leases: map<ActionId, Lease>, a: Action) {
    && (a.id in leases <==> Rank(a.state) <= Rank(Leased))
    && (a.id in leases ==>
          && leases[a.id].fencingToken == 1
          && (if a.state == Leased then leases[a.id].actionVersion == a.version
              else leases[a.id].actionVersion < a.version))
  }

  ghost predicate ProgressOk(s: State, a: Action, d: Decision) {
    a.operation == UpdateProjectPlan ==>
      && (a.state.ExecutedPendingVerification? || a.state.VerifiedSuccess? ==> Landed(s, a, d.Mutation()))
      && (a.state.VerificationFailed? || a.state.RollbackRequested? ==> Overtaken(s, a))
  }

  ghost predicate ActionOk(s: State, id: ActionId)
    requires id in s.actions
  {
    var a := s.actions[id];
    && a.id == id && Visited(a) && LinkOk(s.actions, a) && LeaseOk(s.leases, a)
    && id in s.decisions && AuthorityOk(s, a, s.decisions[id]) && ProgressOk(s, a, s.decisions[id])
  }

  /** A write by an action replaces exactly the plan that was authorized, with
      exactly the requested content, inside the authorized window. */
  predicate AuthoredOk(s: State, w: Write) {
    w.author.By? ==>
      var id := w.author.action;
      && id in s.actions && id in s.decisions
      && var a, d := s.actions[id], s.decisions[id];
         && a.operation == UpdateProjectPlan && w.target == a.target
         && w.before == Some(d.identity.targetDigest)
         && w.after.revision == a.planRevision + 1 && Carries(w.after, d.Mutation())
         && w.after.updatedAt < a.expiresAt
         && Rank(a.state) < Rank(Running)
  }

  ghost predicate AuthorsOk(s: State) {
    forall i {:trigger AuthoredOk(s, s.log[i])} :: 0 <= i < |s.log| ==> AuthoredOk(s, s.log[i])
  }

  ghost predicate SnapshotOk(s: State, snap: Snapshot) {
    && snap.actionId in s.actions
    && var a := s.actions[snap.actionId];
       && Rank(a.state) <= Rank(SnapshotCaptured)
       && snap.target == snap.payload.target == a.target
       && snap.revision == snap.payload.revision == a.planRevision
       && snap.environment == snap.payload.environment == a.environment
       && Logged(s.log, a.target, snap.payload)
  }

  ghost predicate SnapshotsOk(s: State) {
    && (forall i {:trigger SnapshotOk(s, s.snapshots[i])} :: 0 <= i < |s.snapshots| ==> SnapshotOk(s, s.snapshots[i]))
    && (forall i, j :: 0 <= i < j < |s.snapshots| ==> s.snapshots[i].actionId != s.snapshots[j].actionId)
  }

  predicate BindingOk(decisions: map<ActionId, Decision>, b: Binding) {
    && b.actionId in decisions
    && b.createdAt < b.expiresAt <= b.createdAt + CONFIRMATION_TTL
    && b.expiresAt <= decisions[b.actionId].expiresAt
  }

  ghost predicate BindingsOk(s: State) {
    forall c {:trigger BindingOk(s.decisions, s.bindings[c])} ::
      c in s.bindings ==> BindingOk(s.decisions, s.bindings[c])
  }

  ghost predicate ActionsOk(s: State) {
    forall id {:trigger ActionOk(s, id)} :: id in s.actions ==> ActionOk(s, id)
  }

  predicate KeysOk(s: State) { s.leases.Keys <= s.actions.Keys && s.decisions.Keys <= s.actions.Keys }

  ghost predicate Inv(s: State) {
    Valid(s) && ActionsOk(s) && KeysOk(s) && AuthorsOk(s) && SnapshotsOk(s) && BindingsOk(s)
  }

  // ----- how states evolve ------------------------------------------------

  /** Nothing an action is bound to ever changes; its version only grows and
      its lifecycle only moves forward. */
  predicate ActionEvolves(a: Action, b: Action) {
    && a.Fixed() == b.Fixed()
    && a.version <= b.version && (a.version == b.version ==> a == b)
    && Rank(b.state) + (b.version - a.version) <= Rank(a.state)
  }

  predicate LeaseEvolves(l: Lease, m: Lease) { m == l || m == l.(granted := false) }

  /** A later write by an action means it was still able to run, and it has
      advanced since. */
  predicate LateWrite(s: State, t: State, w: Write) {
    w.author.By? && w.author.action in s.actions ==>
      && w.author.action in t.actions
      && Rank(s.actions[w.author.action].state) >= Rank(Running)
      && t.actions[w.author.action].version > s.actions[w.author.action].version
  }

  predicate PlanEvolves(s: State, t: State, x: Target) {
    x in s.plans ==> x in t.plans && s.plans[x].revision <= t.plans[x].revision
  }

  /** Bindings of one id that, once made, stay. */
  predicate IdEvolves(s: State, t: State, id: ActionId) {
    && (id in s.actions ==> id in t.actions && ActionEvolves(s.actions[id], t.actions[id]))
    && (id in s.decisions ==> id in t.decisions && t.decisions[id] == s.decisions[id])
    && (id in s.leases ==> id in t.leases && LeaseEvolves(s.leases[id], t.leases[id]))
    && (id in s.evidence ==> id in t.evidence && t.evidence[id] == s.evidence[id])
  }

  predicate KeyEvolves(s: State, t: State, k: Key) {
    k in s.index ==> k in t.index && t.index[k] == s.index[k]
  }

  ghost predicate Evolves(s: State, t: State) {
    && s.log <= t.log && s.snapshots <= t.snapshots
    && (forall i {:trigger LateWrite(s, t, t.log[i])} :: |s.log| <= i < |t.log| ==> LateWrite(s, t, t.log[i]))
    && (forall x :: PlanEvolves(s, t, x))
    && (forall id :: IdEvolves(s, t, id))
    && (forall k :: KeyEvolves(s, t, k))
    && SwitchEvolves(SwitchFor(s.switches, Staging), SwitchFor(t.switches, Staging))
  }

  predicate SwitchEvolves(a: Switch, b: Switch) {
    a.epoch <= b.epoch && (a.epoch == b.epoch ==> a == b)
  }

  /** The invariant holds after a step, and the step only moved forward. */
  ghost predicate Keeps(s: State, t: State) { Inv(t) && Evolves(s, t) }

  lemma EvolvesRefl(s: State)
    ensures Evolves(s, s)
  {
  }

  lemma LateWriteTrans(s: State, t: State, u: State, i: nat)
    requires Evolves(s, t) && Evolves(t, u) && |s.log| <= i < |u.log|
    ensures LateWrite(s, u, u.log[i])
  {
    if i < |t.log| {
      assert u.log[i] == t.log[i] && LateWrite(s, t, t.log[i]);
    } else {
      assert LateWrite(t, u, u.log[i]);
    }
    if u.log[i].author.By? {
      assert IdEvolves(s, t, u.log[i].author.action) && IdEvolves(t, u, u.log[i].author.action);
    }
  }

  lemma EvolvesTrans(s: State, t: State, u: State)
    requires Evolves(s, t) && Evolves(t, u)
    ensures Evolves(s, u)
  {
    forall i | |s.log| <= i < |u.log| ensures LateWrite(s, u, u.log[i]) { LateWriteTrans(s, t, u, i); }
    forall x ensures PlanEvolves(s, u, x) { assert PlanEvolves(s, t, x) && PlanEvolves(t, u, x); }
    forall id ensures IdEvolves(s, u, id) { assert IdEvolves(s, t, id) && IdEvolves(t, u, id); }
    forall k ensures KeyEvolves(s, u, k) { assert KeyEvolves(s, t, k) && KeyEvolves(t, u, k); }
  }

  // ----- frame lemmas -----------------------------------------------------

  lemma LandedGrows(s: State, t: State, a: Action, fields: Fields)
    requires s.log <= t.log && Landed(s, a, fields)
    ensures Landed(t, a, fields)
  {
    var p :| Logged(s.log, a.target, p) && p.revision == a.planRevision + 1 && Carries(p, fields);
    LoggedGrows(s.log, t.log, a.target, p);
  }

  /** An action nobody touches stays in order while others make progress. */
  lemma UntouchedStaysOk(s: State, t: State, id: ActionId)
    requires id in s.actions && ActionOk(s, id) && Evolves(s, t)
    requires id in t.actions && t.actions[id] == s.actions[id]
    requires id in t.leases <==> id in s.leases
    ensures ActionOk(t, id)
  {
    var a, d := s.actions[id], s.decisions[id];
    LoggedGrows(s.log, t.log, a.target, d.identity.targetDigest);
    if Landed(s, a, d.Mutation()) { LandedGrows(s, t, a, d.Mutation()); }
    assert IdEvolves(s, t, id) && PlanEvolves(s, t, a.target);
    if a.rollbackOf.Some? { assert IdEvolves(s, t, a.rollbackOf.value); }
  }

  lemma AuthoredStaysOk(s: State, t: State, w: Write)
    requires AuthoredOk(s, w) && Evolves(s, t)
    ensures AuthoredOk(t, w)
  {
    if w.author.By? {
      assert IdEvolves(s, t, w.author.action);
    }
  }

  lemma SnapshotStaysOk(s: State, t: State, snap: Snapshot)
    requires SnapshotOk(s, snap) && Evolves(s, t)
    ensures SnapshotOk(t, snap)
  {
    var a := s.actions[snap.actionId];
    assert IdEvolves(s, t, snap.actionId);
    LoggedGrows(s.log, t.log, a.target, snap.payload);
  }

  // ----- composites that advance one action -------------------------------

  /** `t` is `s` after one action advanced, possibly with a new lease, new
      snapshots, new writes or changed confirmations. */
  predicate Advanced(s: State, t: State, id: ActionId) {
    && id in s.actions && id in t.actions && t.actions == s.actions[id := t.actions[id]]
    && ActionEvolves(s.actions[id], t.actions[id])
    && t.decisions == s.decisions && t.index == s.index && t.evidence == s.evidence && t.switches == s.switches
    && (t.leases == s.leases || (id !in s.leases && id in t.leases && t.leases == s.leases[id := t.leases[id]]))
  }

  lemma IndexStaysOk(s: State, t: State, id: ActionId)
    requires IndexOk(s.actions, s.index) && id in s.actions && id in t.actions
    requires t.actions == s.actions[id := t.actions[id]] && t.index == s.index
    requires t.actions[id].Fixed() == s.actions[id].Fixed()
    ensures IndexOk(t.actions, t.index)
  {
    var a, b := s.actions[id], t.actions[id];
    assert a.Fixed().IndexKey() == a.IndexKey() && b.Fixed().IndexKey() == b.IndexKey();
  }

  lemma OtherStaysOk(s: State, t: State, id: ActionId, x: ActionId)
    requires x in s.actions && x != id && ActionOk(s, x) && Advanced(s, t, id) && Evolves(s, t)
    ensures x in t.actions && ActionOk(t, x)
  {
    assert t.actions[x] == s.actions[x];
    UntouchedStaysOk(s, t, x);
  }

  lemma ActionsStayOk(s: State, t: State, id: ActionId)
    requires ActionsOk(s) && Advanced(s, t, id) && Evolves(s, t) && ActionOk(t, id)
    ensures ActionsOk(t)
  {
    forall x | x in t.actions ensures ActionOk(t, x) {
      if x != id {
        assert x in s.actions;
        OtherStaysOk(s, t, id, x);
      }
    }
  }

  lemma AuthorsStayOk(s: State, t: State)
    requires AuthorsOk(s) && Evolves(s, t)
    requires forall i :: |s.log| <= i < |t.log| ==> AuthoredOk(t, t.log[i])
    ensures AuthorsOk(t)
  {
    forall i | 0 <= i < |t.log| ensures AuthoredOk(t, t.log[i]) {
      if i < |s.log| { assert t.log[i] == s.log[i]; AuthoredStaysOk(s, t, s.log[i]); }
    }
  }

  lemma SnapshotsStayOk(s: State, t: State)
    requires SnapshotsOk(s) && Evolves(s, t) && t.snapshots == s.snapshots
    ensures SnapshotsOk(t)
  {
    forall i | 0 <= i < |t.snapshots| ensures SnapshotOk(t, t.snapshots[i]) {
      SnapshotStaysOk(s, t, s.snapshots[i]);
    }
  }

  lemma QuietEvolves(s: State, t: State, id: ActionId)
    requires Advanced(s, t, id) && t.log == s.log && t.plans == s.plans && s.snapshots <= t.snapshots
    ensures Evolves(s, t)
  {
    forall x ensures IdEvolves(s, t, x) {}
  }

  lemma QuietActionOk(s: State, t: State, id: ActionId)
    requires Advanced(s, t, id) && ActionOk(s, id) && t.log == s.log
    requires Visited(t.actions[id]) && LeaseOk(t.leases, t.actions[id])
    requires ProgressOk(t, t.actions[id], s.decisions[id])
    ensures ActionOk(t, id)
  {
    var a, b := s.actions[id], t.actions[id];
    assert a.Fixed() == b.Fixed();
    assert b.IndexKey() == a.IndexKey();
    if a.rollbackOf.Some? { assert a.rollbackOf.value in t.actions; }
  }

  /** An advance that writes no plan. */
  lemma QuietAdvance(s: State, t: State, id: ActionId)
    requires Inv(s) && Advanced(s, t, id) && t.log == s.log && t.plans == s.plans
    requires t.snapshots == s.snapshots || (s.snapshots <= t.snapshots && SnapshotsOk(t))
    requires BindingsOk(t) && ActionOk(s, id)
    requires Visited(t.actions[id]) && LeaseOk(t.leases, t.actions[id])
    requires ProgressOk(t, t.actions[id], s.decisions[id])
    ensures Keeps(s, t)
  {
    QuietEvolves(s, t, id);
    QuietActionOk(s, t, id);
    IndexStaysOk(s, t, id);
    ActionsStayOk(s, t, id);
    AuthorsStayOk(s, t);
    if t.snapshots == s.snapshots { SnapshotsStayOk(s, t); }
  }
}
