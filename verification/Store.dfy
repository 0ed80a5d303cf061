/** Durable state of the control plane and its atomic composites, as values:
    the action repository (control_plane/action_state.py) together with the
    plan store (control_plane/project_plan.py).

    Every composite returns the state it leaves behind next to its result,
    because some of them have already written when they fail. */
module Store {
  import opened Types
  import opened Lifecycle
  import opened Plans
  import opened KillSwitch

  datatype Request = Request(
    operation: Operation, target: Target, token: nat, metadata: Fields, environment: Environment)
  {
    function IndexKey(): Key { Key(target, operation, token) }
  }

  /** Canonical identity of an authorized action; `targetDigest` is the plan
      the authorization was given for. */
  datatype Identity = Identity(
    actionId: ActionId, planId: nat, planDigest: nat,
    targetRevision: nat, targetDigest: ProjectPlan,
    policyVersion: nat, requester: Subject,
    operation: Operation, target: Target, environment: Environment)

  /** An allowed authorization.  Its id is a digest of a payload that contains
      the action id, so decisions are keyed by the action id.  No code reads
      `planExpiresAt`, the end of the window of the plan that was judged. */
  datatype Decision = Decision(
    identity: Identity, request: Request, principal: Subject,
    decidedAt: Time, expiresAt: Time, kind: ConfirmationKind, planExpiresAt: Time)
  {
    predicate IsExpired(now: Time) { now >= expiresAt }

    function Mutation(): Fields { MutationFields(request.metadata) }
  }

  datatype BindingState =
    BindingRequested | BindingConfirmed | BindingConsumed | BindingExpired | BindingInvalidated

  datatype ConfirmationId = ConfirmationId(action: ActionId, requester: Subject, at: Time)

  datatype Binding = Binding(
    id: ConfirmationId, actionId: ActionId, requester: Subject, kind: ConfirmationKind,
    createdAt: Time, expiresAt: Time, confirmedBy: Option<Subject>, state: BindingState)
  {
    predicate IsExpired(now: Time) { now >= expiresAt }
  }

  datatype Snapshot = Snapshot(
    id: SnapshotId, actionId: ActionId, target: Target, environment: Environment,
    revision: nat, payload: ProjectPlan)

  datatype Lease = Lease(
    id: LeaseId, actionId: ActionId, fencingToken: nat, granted: bool,
    grantedAt: Time, expiresAt: Time, actionVersion: nat)

  /** The executor's only input (control_plane/executor.py). */
  datatype Contract = Contract(
    actionId: ActionId, actionVersion: nat, target: Target, environment: Environment,
    planId: nat, expectedRevision: nat, expectedDigest: ProjectPlan, fields: Fields,
    snapshotId: SnapshotId, confirmationId: ConfirmationId, policyVersion: nat,
    killSwitchEpoch: nat, leaseId: LeaseId, fencingToken: nat, expiresAt: Time,
    capabilityVersion: nat)
  {
    predicate IsExpired(now: Time) { now >= expiresAt }

    /** What building a contract insists on. */
    predicate WellFormed() {
      && actionVersion >= 1 && expectedRevision >= 1 && killSwitchEpoch >= 1 && fencingToken >= 1
      && fields != map[] && fields.Keys <= ALLOWED_FIELDS
    }
  }

  datatype Author = Creator | By(action: ActionId)

  /** One write of the plan store, with the plan it replaced. */
  datatype Write = Write(target: Target, author: Author, before: Option<ProjectPlan>, after: ProjectPlan)

  /** `snapshots` lists the captured snapshots in insertion order; `log` lists
      every write of the plan store and is never read by the code. */
  datatype State = State(
    maxRecords: nat,
    actions: map<ActionId, Action>,
    decisions: map<ActionId, Decision>,
    index: map<Key, ActionId>,
    bindings: map<ConfirmationId, Binding>,
    snapshots: seq<Snapshot>,
    leases: map<ActionId, Lease>,
    outcomes: map<ActionId, Outcome>,
    evidence: map<ActionId, Contract>,
    plans: map<Target, ProjectPlan>,
    log: seq<Write>,
    switches: Switches)

  datatype Reply<+T> = Reply(state: State, result: Result<T>)

  function Initial(maxRecords: nat, now: Time): State {
    State(maxRecords, map[], map[], map[], map[], [], map[], map[], map[], map[], [], Seeded(now))
  }

  // ----- plan store -------------------------------------------------------

  function NewPlan(target: Target, env: Environment, title: string, objective: string, now: Time, enabled: bool)
    : Result<ProjectPlan>
  {
    if env != Staging || !ValidText(title, MAX_TITLE) || !ValidText(objective, MAX_OBJECTIVE)
    then Err(PlanRefused)
    else Ok(ProjectPlan(target, env, 1, title, objective, now, now, enabled))
  }

  function CreatePlan(s: State, p: ProjectPlan): (r: Reply<ProjectPlan>)
    ensures r.result.Err? ==> r.state == s
  {
    if p.environment != Staging || p.target in s.plans then Reply(s, Err(PlanRefused))
    else Reply(s.(plans := s.plans[p.target := p], log := s.log + [Write(p.target, Creator, None, p)]), Ok(p))
  }

  function UpdatePlan(s: State, author: ActionId, target: Target, expectedRevision: nat, fields: Fields, now: Time)
    : (r: Reply<ProjectPlan>)
    ensures r.result.Err? ==> r.state == s
  {
    if target !in s.plans then Reply(s, Err(PlanRefused)) else
    var before := s.plans[target];
    match Update(before, expectedRevision, fields, now)
    case Err(e) => Reply(s, Err(e))
    case Ok(p) =>
      Reply(s.(plans := s.plans[target := p], log := s.log + [Write(target, By(author), Some(before), p)]), Ok(p))
  }

  // ----- actions ----------------------------------------------------------

  predicate Coherent(d: Decision, a: Action) {
    && a.id == d.identity.actionId && a.planId == d.identity.planId
    && a.planDigest == d.identity.planDigest && a.policyVersion == d.identity.policyVersion
    && a.planRevision == d.identity.targetRevision
    && a.requester == d.identity.requester
    && (a.operation == RollbackProjectPlan ==>
          a.rollbackOf.Some? && a.snapshotRef.Some? && a.rollbackOf.value != a.id)
    && d.request.token == a.token
  }

  function RegisterAction(s: State, d: Decision, a: Action): (r: Reply<()>)
    ensures r.state.switches == s.switches
    ensures r.result.Err? ==> r.state == s
  {
    if !Coherent(d, a) then Reply(s, Err(StorageCorrupt)) else
    var key := a.IndexKey();
    if key in s.index then
      Reply(s, if s.index[key] == a.id then Ok(()) else Err(IdempotencyConflict))
    else if a.id in s.actions then Reply(s, Err(StorageCorrupt))
    else if |s.actions| >= s.maxRecords then Reply(s, Err(InvalidRequest))
    else
      Reply(s.(decisions := s.decisions[a.id := d], actions := s.actions[a.id := a],
               index := s.index[key := a.id]), Ok(()))
  }

  function FindByKey(s: State, key: Key): Option<Action> {
    if key in s.index && s.index[key] in s.actions then Some(s.actions[s.index[key]]) else None
  }

  function AdvanceAction(s: State, id: ActionId, version: nat, next: LifecycleState, actor: Subject, now: Time)
    : (r: Reply<Action>)
    ensures r.state.switches == s.switches
    ensures id in s.actions ==> id in r.state.actions && r.state.actions[id].Fixed() == s.actions[id].Fixed()
    ensures r.result.Err? ==> r.state == s
  {
    if id !in s.actions then Reply(s, Err(StorageCorrupt)) else
    var current := s.actions[id];
    if current.version != version then Reply(s, Err(StateConflict)) else
    match Advance(current, next, Some(now), Some(actor))
    case Err(e) => Reply(s, Err(e))
    case Ok(a) => Reply(s.(actions := s.actions[id := a]), Ok(a))
  }

  /** The first snapshot taken for an action, in insertion order. */
  function FirstSnapshot(snaps: seq<Snapshot>, id: ActionId): Option<Snapshot> {
    if snaps == [] then None
    else if snaps[0].actionId == id then Some(snaps[0])
    else FirstSnapshot(snaps[1..], id)
  }

  function SnapshotFor(s: State, id: ActionId): Option<Snapshot> { FirstSnapshot(s.snapshots, id) }

  /** The code's duplicate test looks an action id up among snapshot ids; the
      two id spaces are disjoint, so it never fires and is not repeated here. */
  function CaptureSnapshot(s: State, snap: Snapshot, id: ActionId, version: nat, now: Time): (r: Reply<Action>)
    ensures r.state.switches == s.switches
    ensures r.result.Err? ==> r.state == s
  {
    if snap.actionId != id then Reply(s, Err(StorageCorrupt))
    else if id !in s.actions || snap.revision != s.actions[id].planRevision then Reply(s, Err(StaleEvidence))
    else if s.actions[id].state != Confirmed then Reply(s, Err(StateConflict)) else
    var r := AdvanceAction(s, id, version, SnapshotCaptured, s.actions[id].requester, now);
    if r.result.Err? then r else Reply(r.state.(snapshots := s.snapshots + [snap]), r.result)
  }

  function MarkOutcome(s: State, id: ActionId, version: nat, outcome: Outcome): (r: Reply<Action>)
    ensures r.state.switches == s.switches
    ensures r.result.Err? ==> r.state == s
  {
    if id !in s.actions then Reply(s, Err(StorageCorrupt))
    else if s.actions[id].version != version then Reply(s, Err(StateConflict))
    else if id in s.outcomes && s.outcomes[id] == UnknownOutcome && outcome == MutationNotStarted then
      Reply(s, Err(StateConflict))
    else Reply(s.(outcomes := s.outcomes[id := outcome]), Ok(s.actions[id]))
  }

  /** Write-once: rebinding the same contract is a replay, another one an error. */
  function BindEvidence(s: State, id: ActionId, digest: Contract): (r: Reply<()>)
    ensures r.result.Err? ==> r.state == s
  {
    if id in s.evidence then Reply(s, if s.evidence[id] == digest then Ok(()) else Err(StorageCorrupt))
    else Reply(s.(evidence := s.evidence[id := digest]), Ok(()))
  }

  // ----- leases -----------------------------------------------------------

  function ActiveLease(s: State, id: ActionId, now: Time): Option<Lease> {
    if id in s.leases && s.leases[id].granted && s.leases[id].expiresAt > now then Some(s.leases[id]) else None
  }

  /** One past the highest token granted to the action; the table holds one
      lease per action, so that is the stored one. */
  function NextToken(s: State, id: ActionId): nat {
    if id in s.leases then s.leases[id].fencingToken + 1 else 1
  }

  function AcquireLease(s: State, id: ActionId, version: nat, leaseId: LeaseId, now: Time): (r: Reply<Action>)
    ensures r.state.switches == s.switches
    ensures r.result.Err? ==> r.state == s
  {
    if id !in s.actions then Reply(s, Err(StorageCorrupt)) else
    var current := s.actions[id];
    if current.state != SnapshotCaptured then Reply(s, Err(StateConflict))
    else if current.version != version then Reply(s, Err(StateConflict))
    else if current.IsExpired(now) then Reply(s, Err(ExpiredPlan))
    else if ActiveLease(s, id, now).Some? then Reply(s, Err(StateConflict)) else
    var r := AdvanceAction(s, id, version, Leased, current.requester, now);
    match r.result
    case Err(_) => r
    case Ok(a) =>
      var lease := Lease(leaseId, id, NextToken(s, id), true, now, now + LEASE_TTL, a.version);
      Reply(r.state.(leases := s.leases[id := lease]), r.result)
  }

  function ReleaseLease(s: State, id: ActionId, leaseId: LeaseId, fencingToken: nat): Reply<bool> {
    if id !in s.leases || s.leases[id].id != leaseId || s.leases[id].fencingToken != fencingToken then
      Reply(s, Ok(false))
    else Reply(s.(leases := s.leases[id := s.leases[id].(granted := false)]), Ok(true))
  }

  // ----- execution --------------------------------------------------------

  /** Consumes the named confirmation, whichever action it belongs to. */
  function BeginExecution(s: State, id: ActionId, version: nat, cid: ConfirmationId, now: Time): (r: Reply<Action>)
    ensures r.state.switches == s.switches && r.state.actions.Keys == s.actions.Keys
    ensures r.state.plans == s.plans && r.state.log == s.log
    ensures r.result.Err? ==> r.state == s
  {
    if id !in s.actions then Reply(s, Err(StorageCorrupt))
    else if s.actions[id].state != Leased then Reply(s, Err(StateConflict))
    else if s.actions[id].version != version then Reply(s, Err(StateConflict))
    else if cid !in s.bindings || s.bindings[cid].state != BindingConfirmed then
      Reply(s, Err(ConfirmationMismatch))
    else
      var r := AdvanceAction(s, id, version, Running, s.actions[id].requester, now);
      if r.result.Err? then r
      else Reply(r.state.(bindings := s.bindings[cid := s.bindings[cid].(state := BindingConsumed)]), r.result)
  }

  /** The plan is written before the action advances, so a failing advance
      leaves the plan changed. */
  function MutatePlan(s: State, id: ActionId, version: nat, expectedRevision: nat, fields: Fields, now: Time)
    : (r: Reply<Action>)
    ensures r.state.switches == s.switches && r.state.actions.Keys == s.actions.Keys
  {
    if id !in s.actions then Reply(s, Err(StorageCorrupt))
    else if s.actions[id].state != Running then Reply(s, Err(StateConflict))
    else if s.actions[id].version != version then Reply(s, Err(StateConflict)) else
    var u := UpdatePlan(s, id, s.actions[id].target, expectedRevision, fields, now);
    if u.result.Err? then Reply(u.state, Err(StaleEvidence)) else
    var r := AdvanceAction(u.state, id, version, ExecutedPendingVerification, s.actions[id].requester, now);
    if r.result.Err? then r
    else Reply(r.state.(outcomes := s.outcomes[id := MutationSucceeded]), r.result)
  }

  function RecordVerification(s: State, id: ActionId, version: nat, success: bool, now: Time): (r: Reply<Action>)
    ensures r.state.switches == s.switches
    ensures r.result.Err? ==> r.state == s
  {
    if id !in s.actions then Reply(s, Err(StorageCorrupt))
    else if s.actions[id].state != ExecutedPendingVerification then Reply(s, Err(StateConflict))
    else if s.actions[id].version != version then Reply(s, Err(StateConflict)) else
    var r := AdvanceAction(s, id, version, if success then VerifiedSuccess else VerificationFailed,
                           s.actions[id].requester, now);
    if r.result.Err? then r
    else Reply(r.state.(outcomes := s.outcomes[id := if success then ReadBackSucceeded else ReadBackFailed]), r.result)
  }

  function MarkReconciled(s: State, id: ActionId, version: nat, to: LifecycleState, outcome: Outcome, now: Time)
    : (r: Reply<Action>)
    ensures r.state.switches == s.switches
    ensures r.result.Err? ==> r.state == s
  {
    if id !in s.actions then Reply(s, Err(StorageCorrupt))
    else if s.actions[id].version != version then Reply(s, Err(StateConflict)) else
    var r := AdvanceAction(s, id, version, to, s.actions[id].requester, now);
    if r.result.Err? then r else Reply(r.state.(outcomes := s.outcomes[id := outcome]), r.result)
  }

  function AdvanceRollback(s: State, id: ActionId, version: nat, from: set<LifecycleState>, to: LifecycleState,
                           now: Time)
    : (r: Reply<Action>)
    ensures r.state.switches == s.switches
    ensures r.result.Err? ==> r.state == s
  {
    if id !in s.actions then Reply(s, Err(StorageCorrupt))
    else if s.actions[id].state !in from then Reply(s, Err(StateConflict))
    else if s.actions[id].version != version then Reply(s, Err(StateConflict))
    else AdvanceAction(s, id, version, to, s.actions[id].requester, now)
  }

  // ----- confirmations ----------------------------------------------------

  function PutBinding(s: State, b: Binding): State { s.(bindings := s.bindings[b.id := b]) }

  predicate HasBinding(s: State, id: ActionId, states: set<BindingState>) {
    exists c :: c in s.bindings && s.bindings[c].actionId == id && s.bindings[c].state in states
  }

  /** The confirmed binding is stored before the action advances, so a failing
      advance leaves it behind. */
  function ConfirmAndAdvance(s: State, b: Binding, id: ActionId, version: nat, approver: Subject, now: Time)
    : (r: Reply<Action>)
    ensures r.state.switches == s.switches
  {
    if b.actionId != id then Reply(s, Err(ConfirmationMismatch))
    else AdvanceAction(PutBinding(s, b.(state := BindingConfirmed)), id, version, Confirmed, approver, now)
  }

  // ----- what the repository itself keeps, for arbitrary arguments ---------

  /** The idempotency index agrees with a scan of the stored actions. */
  ghost predicate IndexOk(actions: map<ActionId, Action>, index: map<Key, ActionId>) {
    && (forall id :: id in actions ==>
          actions[id].id == id && actions[id].IndexKey() in index && index[actions[id].IndexKey()] == id)
    && (forall k :: k in index ==> index[k] in actions && actions[index[k]].IndexKey() == k)
  }

  function Mutations(log: seq<Write>, t: Target): nat {
    if log == [] then 0
    else Mutations(log[..|log| - 1], t) +
         (if log[|log| - 1].target == t && log[|log| - 1].author.By? then 1 else 0)
  }

  ghost predicate Logged(log: seq<Write>, t: Target, p: ProjectPlan) {
    exists i :: 0 <= i < |log| && log[i].target == t && log[i].after == p
  }

  predicate WriteOk(w: Write) {
    && w.after.target == w.target && w.after.environment == Staging && w.after.revision >= 1
    && (w.author == Creator ==> w.before == None && w.after.revision == 1)
    && (w.author.By? ==> w.before.Some? && w.after.revision == w.before.value.revision + 1)
  }

  /** Every revision of a target is written once and in order. */
  ghost predicate Ordered(log: seq<Write>) {
    forall i, j :: 0 <= i < j < |log| && log[i].target == log[j].target ==>
      log[i].after.revision < log[j].after.revision
  }

  /** The store holds the last write of each target. */
  ghost predicate Covers(plans: map<Target, ProjectPlan>, log: seq<Write>) {
    forall i :: 0 <= i < |log| ==>
      log[i].target in plans && log[i].after.revision <= plans[log[i].target].revision
  }

  /** A target's revision is one plus the mutations applied to it. */
  ghost predicate StoredOk(plans: map<Target, ProjectPlan>, log: seq<Write>, t: Target) {
    if t in plans then
      plans[t].target == t && Logged(log, t, plans[t]) && plans[t].revision == 1 + Mutations(log, t)
    else Mutations(log, t) == 0
  }

  ghost predicate LogOk(plans: map<Target, ProjectPlan>, log: seq<Write>) {
    && (forall i :: 0 <= i < |log| ==> WriteOk(log[i]))
    && Ordered(log)
    && Covers(plans, log)
    && (forall t :: StoredOk(plans, log, t))
  }

  ghost predicate Valid(s: State) {
    IndexOk(s.actions, s.index) && LogOk(s.plans, s.log) && KillSwitch.WellFormed(s.switches)
  }

  lemma MutationsAppend(log: seq<Write>, w: Write, t: Target)
    ensures Mutations(log + [w], t) == Mutations(log, t) + (if w.target == t && w.author.By? then 1 else 0)
  {
    assert (log + [w])[..|log|] == log;
  }

  lemma LoggedGrows(log: seq<Write>, more: seq<Write>, t: Target, p: ProjectPlan)
    requires log <= more && Logged(log, t, p)
    ensures Logged(more, t, p)
  {
    var i :| 0 <= i < |log| && log[i].target == t && log[i].after == p;
    assert more[i] == log[i];
  }

  /** A write that follows on from the stored plan. */
  predicate Follows(plans: map<Target, ProjectPlan>, w: Write) {
    && WriteOk(w)
    && (w.author == Creator <==> w.target !in plans)
    && (w.author.By? ==> w.target in plans && w.before == Some(plans[w.target]))
  }

  lemma AppendKeepsLog(plans: map<Target, ProjectPlan>, log: seq<Write>, w: Write)
    requires LogOk(plans, log) && Follows(plans, w)
    ensures LogOk(plans[w.target := w.after], log + [w])
    ensures Logged(log + [w], w.target, w.after)
  {
    var n := |log|;
    var more := log + [w];
    var after := plans[w.target := w.after];
    assert more[n] == w;
    assert Covers(after, more);
    forall i, j | 0 <= i < j < |more| && more[i].target == more[j].target
      ensures more[i].after.revision < more[j].after.revision {
      if j == n { assert more[i] == log[i]; }
    }
    forall t ensures StoredOk(after, more, t) {
      MutationsAppend(log, w, t);
      assert StoredOk(plans, log, t);
      if t in plans { LoggedGrows(log, more, t, plans[t]); }
    }
  }

  /** A revision pins down the plan: two logged plans of one target with the
      same revision are the same plan. */
  lemma RevisionPinsPlan(log: seq<Write>, t: Target, p: ProjectPlan, q: ProjectPlan)
    requires Ordered(log) && Logged(log, t, p) && Logged(log, t, q) && p.revision == q.revision
    ensures p == q
  {
    var i :| 0 <= i < |log| && log[i].target == t && log[i].after == p;
    var j :| 0 <= j < |log| && log[j].target == t && log[j].after == q;
  }

  lemma AdvanceKeepsValid(s: State, id: ActionId, version: nat, next: LifecycleState, actor: Subject, now: Time)
    requires Valid(s)
    ensures Valid(AdvanceAction(s, id, version, next, actor, now).state)
  {
    var r := AdvanceAction(s, id, version, next, actor, now);
    if r.result.Ok? {
      var a := r.result.value;
      assert a.Fixed() == s.actions[id].Fixed();
      assert a.IndexKey() == a.Fixed().IndexKey() == s.actions[id].IndexKey();
    }
  }

  lemma UpdateKeepsValid(s: State, author: ActionId, target: Target, revision: nat, fields: Fields, now: Time)
    requires Valid(s)
    ensures Valid(UpdatePlan(s, author, target, revision, fields, now).state)
  {
    var r := UpdatePlan(s, author, target, revision, fields, now);
    if r.result.Ok? {
      var w := Write(target, By(author), Some(s.plans[target]), r.result.value);
      assert StoredOk(s.plans, s.log, target);
      AppendKeepsLog(s.plans, s.log, w);
    }
  }

  lemma CreateKeepsValid(s: State, p: ProjectPlan)
    requires Valid(s) && p.revision == 1
    ensures Valid(CreatePlan(s, p).state)
  {
    if CreatePlan(s, p).result.Ok? {
      AppendKeepsLog(s.plans, s.log, Write(p.target, Creator, None, p));
    }
  }
}
