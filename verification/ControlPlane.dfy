/** The service's verbs as an object over the repository
    (control_plane/service.py): each method is tied to its function, and one
    whole `execute_action` is followed from the captured snapshot to the end. */
module ControlPlane {
  import opened Types
  import opened Lifecycle
  import opened Plans
  import opened KillSwitch
  import opened Store
  import G = Gate
  import X = Executor
  import V = Service
  import opened Invariant
  import opened Preservation
  import opened Reachable
  import opened Alone
  import N = Conditions
  import B = Reversal
  import Y = RollbackExample
  import opened Footprint
  import R = Repository
  import P = PlanExecutor
  import Protocol
  import T = Theorems

  // ----- execute_action -----------------------------------------------------------

  function LeaseAction(s: State, id: ActionId, leaseId: LeaseId, now: Time): (r: Reply<()>)
    requires id in s.actions
  {
    if s.actions[id].state != SnapshotCaptured then Reply(s, Ok(())) else
    var l := AcquireLease(s, id, s.actions[id].version, leaseId, now);
    Reply(l.state, if l.result.Err? then Err(l.result.error) else Ok(()))
  }

  predicate Concluded(s: LifecycleState) {
    s.VerifiedSuccess? || s.RolledBack? || s.ExecutionFailed? || s.RollbackFailed?
  }

  /** Lease, contract and execution of an ordinary action. */
  function LeasedAndExecuted(s: State, id: ActionId, cid: ConfirmationId, leaseId: LeaseId, now: Time): Reply<X.Done>
    requires id in s.actions
  {
    var l := LeaseAction(s, id, leaseId, now);
    if l.result.Err? then Reply(l.state, Err(l.result.error)) else
    var c := X.ContractForAction(l.state, id, cid, now);
    if c.Err? then Reply(l.state, Err(c.error)) else X.Execute(l.state, c.value, now)
  }

  function ExecutedAction(s: State, id: ActionId, cid: ConfirmationId, leaseId: LeaseId, now: Time): Reply<X.Done> {
    if id !in s.actions then Reply(s, Err(ConfirmationMismatch)) else
    var a := s.actions[id];
    if a.IsExpired(now) then Reply(s, Err(ExpiredPlan))
    else if Concluded(a.state) then
      Reply(s, Ok(X.Done(if id in s.outcomes then s.outcomes[id] else MutationNotStarted, a.state)))
    else if a.rollbackOf.Some? then X.ExecuteRollback(s, id, a.rollbackOf.value, cid, leaseId, now)
    else if id !in s.decisions then Reply(s, Err(StorageCorrupt))
    else if !X.Usable(s, id, cid) then Reply(s, Err(ConfirmationMismatch))
    else if SnapshotFor(s, id).None? then Reply(s, Err(StaleEvidence))
    else LeasedAndExecuted(s, id, cid, leaseId, now)
  }

  // ----- request_rollback ---------------------------------------------------------

  /** The original action is flagged once its rollback is allowed. */
  function RequestedRollback(s: State, call: V.Call, original: ActionId, now: Time): Reply<V.Verdict> {
    if original !in s.actions || original !in s.decisions then Reply(s, Err(ConfirmationMismatch)) else
    var o := s.actions[original];
    if o.target !in s.plans then Reply(s, Err(PlanRefused))
    else if G.RollbackSafety(s, original) != G.Safe || SnapshotFor(s, original).None?
    then Reply(s, Err(StateConflict)) else
    var k := call.(request := V.RollbackRequest(o), seen := Some(s.plans[o.target]));
    var r := V.Authorize(s, k, Some(V.Refs(original, SnapshotFor(s, original).value.id)));
    Flagged(r.state, r.result, original, now)
  }

  function Flagged(s: State, verdict: Result<V.Verdict>, original: ActionId, now: Time): Reply<V.Verdict> {
    if verdict.Err? || verdict.value.Denied? || !FlaggableIn(s, original) then Reply(s, verdict) else
    var f := AdvanceRollback(s, original, s.actions[original].version, {VerificationFailed, ExecutionFailed},
                             RollbackRequested, now);
    Reply(f.state, if f.result.Err? then Err(f.result.error) else verdict)
  }

  predicate FlaggableIn(s: State, id: ActionId) {
    id in s.actions && (s.actions[id].state.VerificationFailed? || s.actions[id].state.ExecutionFailed?)
  }

  // ----- confirm and capture -----------------------------------------------------

  /** `confirm`: a pending confirmation is found or made, then confirmed, and
      the action advances from the version just read. */
  function ConfirmDecision(s: State, id: ActionId, pending: ConfirmationId, actor: Subject, now: Time): Reply<Action> {
    var asked := V.RequestConfirmation(s, id, pending, now);
    if asked.result.Err? then Reply(asked.state, Err(asked.result.error))
    else if id !in asked.state.actions then Reply(asked.state, Err(StorageCorrupt))
    else V.Confirm(asked.state, asked.result.value, asked.state.actions[id].version, actor, now)
  }

  /** `capture_snapshot` of the target's current plan. */
  function CaptureCurrent(s: State, id: ActionId, sid: SnapshotId, now: Time): Reply<Action> {
    if id !in s.actions then Reply(s, Err(ConfirmationMismatch))
    else if s.actions[id].state != Confirmed then Reply(s, Err(StateConflict))
    else if !Permits(s.switches, s.actions[id].environment) then Reply(s, Err(UnavailableTarget))
    else if s.actions[id].target !in s.plans then Reply(s, Err(StaleEvidence))
    else V.Capture(s, id, s.actions[id].version, s.plans[s.actions[id].target], sid, now)
  }

  // ----- a whole execution ----------------------------------------------------------

  /** One successful call takes a captured action four transitions on, replaces
      exactly the authorized plan by its next revision with the requested
      content, releases lease number one, and leaves every other action and
      every other plan alone. */
  predicate Completed(s: State, t: State, id: ActionId, now: Time)
    requires id in s.actions && id in s.decisions
  {
    var a, d := s.actions[id], s.decisions[id];
    && id in t.actions && t.actions == s.actions[id := t.actions[id]]
    && t.actions[id].state == VerifiedSuccess && t.actions[id].version == a.version + 4
    && a.target in s.plans && s.plans[a.target] == d.identity.targetDigest
    && a.target in t.plans
    && Update(d.identity.targetDigest, a.planRevision, d.Mutation(), now) == Ok(t.plans[a.target])
    && t.plans == s.plans[a.target := t.plans[a.target]]
    && t.log == s.log + [Write(a.target, By(id), Some(s.plans[a.target]), t.plans[a.target])]
    && id in t.leases && !t.leases[id].granted && t.leases[id].fencingToken == 1
  }

  /** What taking the lease did. */
  predicate Granted(s: State, l: State, id: ActionId) {
    && id in s.actions && id in l.actions && l.actions == s.actions[id := l.actions[id]]
    && l.actions[id].state == Leased && l.actions[id].version == s.actions[id].version + 1
    && l.actions[id].target == s.actions[id].target && l.actions[id].planRevision == s.actions[id].planRevision
    && id in l.leases && l.leases[id].fencingToken == 1
    && l.plans == s.plans && l.log == s.log && l.decisions == s.decisions
  }

  lemma LeaseGrants(s: State, id: ActionId, leaseId: LeaseId, now: Time)
    requires Inv(s) && id in s.actions && s.actions[id].state == SnapshotCaptured
             && LeaseAction(s, id, leaseId, now).result.Ok?
    ensures var l := LeaseAction(s, id, leaseId, now).state; Granted(s, l, id) && Inv(l)
  {
    assert ActionOk(s, id);
    LeaseDid(s, id, s.actions[id].version, leaseId, now);
    LeaseKeeps(s, id, s.actions[id].version, leaseId, now);
  }

  lemma FinishedCompletes(s: State, l: State, c: Contract, id: ActionId, p: ProjectPlan, now: Time)
    requires Granted(s, l, id) && c.actionId == id && Runnable(l, c, now) && NextPlan(l, c, now) == Ok(p)
    requires id in s.decisions && c.fields == s.decisions[id].Mutation() && c.target == s.actions[id].target
    requires c.expectedRevision == s.actions[id].planRevision
             && l.plans[c.target] == s.decisions[id].identity.targetDigest
    ensures Completed(s, Finished(l, c, p), id, now)
  {
  }

  /** An ordinary action with its snapshot taken, in a store the callers can have
      produced. */
  ghost predicate StartsCaptured(s: State, id: ActionId) {
    && Inv(s) && id in s.actions && id in s.decisions
    && s.actions[id].state == SnapshotCaptured && s.actions[id].rollbackOf.None?
  }

  lemma ExecuteActionCompletes(s: State, id: ActionId, cid: ConfirmationId, leaseId: LeaseId, now: Time)
    requires Inv(s) && id in s.actions && s.actions[id].state == SnapshotCaptured && s.actions[id].rollbackOf.None?
    requires ExecutedAction(s, id, cid, leaseId, now).result.Ok?
    ensures id in s.decisions && Completed(s, ExecutedAction(s, id, cid, leaseId, now).state, id, now)
    ensures ExecutedAction(s, id, cid, leaseId, now).result == Ok(X.Done(ReadBackSucceeded, VerifiedSuccess))
  {
    var l := LeaseAction(s, id, leaseId, now);
    LeaseGrants(s, id, leaseId, now);
    var c := X.ContractForAction(l.state, id, cid, now).value;
    ContractGivesAuthority(l.state, id, cid, now);
    ExecuteAlone(l.state, c, now);
    LeasedCompletes(s, l.state, c, id, now, X.Execute(l.state, c, now));
  }

  /** A leased action that was executed without an error has completed. */
  lemma LeasedCompletes(s: State, l: State, c: Contract, id: ActionId, now: Time, r: Reply<X.Done>)
    requires Granted(s, l, id) && Inv(l) && RanAlone(l, c, now, r) && r.result.Ok? && c.actionId == id
    requires id in s.decisions && c.fields == s.decisions[id].Mutation() && c.target == s.actions[id].target
    requires c.expectedRevision == s.actions[id].planRevision
    requires c.expectedDigest == s.decisions[id].identity.targetDigest
    ensures Completed(s, r.state, id, now) && r.result == Ok(X.Done(ReadBackSucceeded, VerifiedSuccess))
  {
    AdmissibleIsRunnable(l, c, now);
    FinishedCompletes(s, l, c, id, NextPlan(l, c, now).value, now);
  }

  /** The contract asks for the requested fields on the authorized revision. */
  lemma ContractGivesAuthority(s: State, id: ActionId, cid: ConfirmationId, now: Time)
    requires Inv(s) && X.ContractForAction(s, id, cid, now).Ok?
    ensures var c := X.ContractForAction(s, id, cid, now).value;
            && c.actionId == id && id in s.actions && id in s.decisions && c.fields == s.decisions[id].Mutation()
            && c.target == s.actions[id].target && c.expectedRevision == s.actions[id].planRevision
            && c.expectedDigest == s.decisions[id].identity.targetDigest
  {
    assert ActionOk(s, id);
  }

  /** Nothing is left to be done for the action, one way or the other. */
  predicate IsOver(st: LifecycleState) {
    st == VerifiedSuccess || st == RolledBack || st == ExecutionFailed || st == RollbackFailed
  }

  /** An action that is over is answered with what is on record, one that is
      expired is refused, and neither changes anything. */
  predicate Replays(s: State, t: State, id: ActionId, now: Time, r: Result<X.Done>) {
    && (id !in s.actions ==> t == s && r == Err(ConfirmationMismatch))
    && (id in s.actions && now >= s.actions[id].expiresAt ==> t == s && r == Err(ExpiredPlan))
    && (id in s.actions && now < s.actions[id].expiresAt && IsOver(s.actions[id].state) ==>
          && t == s
          && r == Ok(X.Done(if id in s.outcomes then s.outcomes[id] else MutationNotStarted, s.actions[id].state)))
  }

  lemma ExecutedReplays(s: State, id: ActionId, cid: ConfirmationId, leaseId: LeaseId, now: Time)
    ensures var r := ExecutedAction(s, id, cid, leaseId, now); Replays(s, r.state, id, now, r.result)
  {
  }

  // ----- when the verbs succeed -----------------------------------------------------------

  /** The action waits for its confirmation and this actor may give it. */
  predicate Waits(a: Action, actor: Subject, now: Time) {
    && a.state == ConfirmationRequired && now < a.expiresAt && N.MayConfirm(a.kind, a.requester, actor)
    && (a.approver.Some? ==> a.approver == Some(actor))
  }

  /** There is, or can be made, a pending confirmation that this actor may give. */
  predicate Available(s: State, id: ActionId, d: Decision, pending: ConfirmationId, actor: Subject, now: Time) {
    if HasBinding(s, id, {BindingRequested}) then
      && pending in s.bindings
      && var b := s.bindings[pending];
         && b.actionId == id && b.state == BindingRequested && now < b.expiresAt
         && N.MayConfirm(b.kind, b.requester, actor)
    else
      && !HasBinding(s, id, {BindingConfirmed}) && |s.bindings| < 256
      && ConfirmationId(id, d.principal, now) !in s.bindings && N.MayConfirm(d.kind, d.principal, actor)
  }

  predicate ConfirmPossible(s: State, id: ActionId, pending: ConfirmationId, actor: Subject, now: Time) {
    && id in s.decisions && now < s.decisions[id].expiresAt && id in s.actions && Waits(s.actions[id], actor, now)
    && Available(s, id, s.decisions[id], pending, actor, now)
  }

  lemma AskedConfirmation(s: State, id: ActionId, pending: ConfirmationId, actor: Subject, now: Time)
    ensures var asked := V.RequestConfirmation(s, id, pending, now);
            && asked.state == s.(bindings := asked.state.bindings)
            && (asked.result.Ok? && id in s.actions ==>
                  && id in s.decisions && asked.result.value in asked.state.bindings
                  && asked.state.bindings[asked.result.value].actionId == id
                  && (N.Confirmable(asked.state, asked.result.value, s.actions[id].version, actor, now) <==>
                        ConfirmPossible(s, id, pending, actor, now)))
            && (asked.result.Err? ==> !ConfirmPossible(s, id, pending, actor, now))
  {
    var asked := V.RequestConfirmation(s, id, pending, now);
  }

  /** `confirm` succeeds if and only if the decision stands, the action waits for
      it, and the actor may give a confirmation that is pending or can be made;
      the action is then confirmed by that actor. */
  lemma ConfirmsExactly(s: State, id: ActionId, pending: ConfirmationId, actor: Subject, now: Time)
    ensures var r := ConfirmDecision(s, id, pending, actor, now).result;
            && (r.Ok? <==> ConfirmPossible(s, id, pending, actor, now))
            && (r.Ok? ==>
                  var a := s.actions[id];
                  r.value == a.(state := Confirmed, version := a.version + 1, approver := Some(actor)))
  {
    AskedConfirmation(s, id, pending, actor, now);
    var asked := V.RequestConfirmation(s, id, pending, now);
    if asked.result.Ok? && id in s.actions {
      N.ConfirmsExactly(asked.state, asked.result.value, s.actions[id].version, actor, now);
      ConfirmedIs(asked.state, asked.result.value, s.actions[id].version, actor, now);
    }
  }

  lemma ConfirmedIs(s: State, cid: ConfirmationId, version: nat, actor: Subject, now: Time)
    ensures var r := V.Confirm(s, cid, version, actor, now);
            r.result.Ok? ==> cid in s.bindings && s.bindings[cid].actionId in r.state.actions
                             && r.result.value == r.state.actions[s.bindings[cid].actionId]
  {
  }

  /** The contract that executing a captured action builds. */
  function BuiltContract(s: State, id: ActionId, cid: ConfirmationId, leaseId: LeaseId): Contract
    requires id in s.actions && id in s.decisions && SnapshotFor(s, id).Some?
  {
    var a, d := s.actions[id], s.decisions[id];
    Contract(id, a.version + 1, a.target, a.environment, a.planId, a.planRevision, d.identity.targetDigest,
             d.Mutation(), SnapshotFor(s, id).value.id, cid, a.policyVersion,
             SwitchFor(s.switches, a.environment).epoch, leaseId, 1, a.expiresAt, 1)
  }

  /** Whatever an execution needs besides what the action's own state warrants. */
  predicate Executable(s: State, id: ActionId, cid: ConfirmationId, leaseId: LeaseId, now: Time)
    requires id in s.actions && id in s.decisions && SnapshotFor(s, id).Some?
  {
    var a, d := s.actions[id], s.decisions[id];
    && now < a.expiresAt && a.protocol == Mc616d2V1
    && (id in s.evidence ==> s.evidence[id] == BuiltContract(s, id, cid, leaseId))
    && cid in s.bindings && s.bindings[cid].actionId == id && s.bindings[cid].state == BindingConfirmed
    && now < s.bindings[cid].expiresAt
    && Permits(s.switches, Staging)
    && a.target in s.plans && s.plans[a.target] == d.identity.targetDigest
    && Acceptable(s.plans[a.target], d.Mutation())
  }

  /** What the lease left. */
  predicate LeaseLeft(s: State, l: State, id: ActionId, leaseId: LeaseId, now: Time) {
    && id in s.actions && id in s.decisions && id in l.actions && id in l.leases
    && l == s.(actions := l.actions, leases := l.leases)
    && l.actions[id] == s.actions[id].(state := Leased, version := s.actions[id].version + 1)
    && l.leases[id].granted && now < l.leases[id].expiresAt && l.leases[id].id == leaseId
    && l.leases[id].fencingToken == 1 && l.leases[id].actionVersion == l.actions[id].version
  }

  lemma LeaseGoesThrough(s: State, id: ActionId, leaseId: LeaseId, now: Time)
    requires id in s.actions && id in s.decisions && s.actions[id].state == SnapshotCaptured && id !in s.leases
    requires now < s.actions[id].expiresAt && s.actions[id].approver.Some?
    ensures LeaseAction(s, id, leaseId, now).result.Ok?
    ensures LeaseLeft(s, LeaseAction(s, id, leaseId, now).state, id, leaseId, now)
  {
    N.LeasesExactly(s, id, s.actions[id].version, leaseId, now);
    FirstToken(s, id, leaseId, now);
  }

  lemma FirstToken(s: State, id: ActionId, leaseId: LeaseId, now: Time)
    requires id in s.actions && id !in s.leases
    ensures var t := AcquireLease(s, id, s.actions[id].version, leaseId, now).state;
            id in t.leases ==> t.leases[id].fencingToken == 1
  {
  }

  /** The lease is taken and everything the contract is built from is there. */
  lemma LeaseIsTaken(s: State, id: ActionId, leaseId: LeaseId, now: Time)
    requires StartsCaptured(s, id) && B.SnapshotsTaken(s) && now < s.actions[id].expiresAt
    ensures var l := LeaseAction(s, id, leaseId, now);
            l.result.Ok? && Inv(l.state) && LeaseLeft(s, l.state, id, leaseId, now) && SnapshotFor(l.state, id).Some?
  {
    assert ActionOk(s, id) && PastCapture(s, id);
    LeaseGoesThrough(s, id, leaseId, now);
    LeaseKeeps(s, id, s.actions[id].version, leaseId, now);
  }

  lemma AuthorityIsWellFormed(s: State, id: ActionId)
    requires Inv(s) && id in s.actions && id in s.decisions && s.actions[id].operation == UpdateProjectPlan
    ensures s.actions[id].planRevision >= 1 && s.actions[id].environment == Staging
    ensures s.decisions[id].Mutation() != map[] && s.decisions[id].Mutation().Keys <= ALLOWED_FIELDS
    ensures SwitchFor(s.switches, Staging).epoch >= 1 && s.actions[id].target in s.plans
    ensures s.decisions[id].identity.targetDigest.revision == s.actions[id].planRevision
  {
    assert ActionOk(s, id);
    var p := s.decisions[id].identity.targetDigest;
    LoggedIsStaging(s.plans, s.log, s.actions[id].target, p);
    var i :| 0 <= i < |s.log| && s.log[i].target == s.actions[id].target && s.log[i].after == p;
    assert WriteOk(s.log[i]);
  }

  /** With the lease taken, the contract is built exactly from a usable
      confirmation. */
  lemma ContractIsBuilt(l: State, id: ActionId, cid: ConfirmationId, now: Time)
    requires Inv(l) && id in l.actions && id in l.decisions && l.actions[id].state == Leased
    requires l.actions[id].rollbackOf.None? && now < l.actions[id].expiresAt && SnapshotFor(l, id).Some?
    requires id in l.leases && l.leases[id].granted && now < l.leases[id].expiresAt && l.actions[id].version >= 1
    ensures var r := X.ContractForAction(l, id, cid, now);
            && (r.Ok? <==> X.Usable(l, id, cid))
            && (r.Ok? ==>
                  r.value == X.ContractOf(l, id, l.actions[id], l.decisions[id], l.decisions[id].Mutation(),
                                          SnapshotFor(l, id).value.id, cid, l.leases[id]))
  {
    assert ActionOk(l, id);
    AuthorityIsWellFormed(l, id);
  }

  lemma AdmissibleWhen(l: State, id: ActionId, cid: ConfirmationId, now: Time)
    requires Inv(l) && id in l.actions && id in l.decisions && l.actions[id].state == Leased
    requires l.actions[id].rollbackOf.None?
    requires SnapshotFor(l, id).Some? && id in l.leases && l.leases[id].granted && now < l.leases[id].expiresAt
    requires l.leases[id].actionVersion == l.actions[id].version && now < l.actions[id].expiresAt
    ensures var a := l.actions[id];
            var c := X.ContractOf(l, id, a, l.decisions[id], l.decisions[id].Mutation(),
                                  SnapshotFor(l, id).value.id, cid, l.leases[id]);
            Admissible(l, c, now) <==>
              && cid in l.bindings && l.bindings[cid].actionId == id && l.bindings[cid].state == BindingConfirmed
              && now < l.bindings[cid].expiresAt && Permits(l.switches, Staging)
              && a.target in l.plans && l.plans[a.target] == l.decisions[id].identity.targetDigest
              && (id in l.evidence ==> l.evidence[id] == c) && a.protocol == Mc616d2V1
  {
    assert ActionOk(l, id);
    AuthorityIsWellFormed(l, id);
    B.TakenHoldsAuthorized(l, id);
  }

  lemma ExecutesWhen(s: State, l: State, id: ActionId, cid: ConfirmationId, leaseId: LeaseId, now: Time, c: Contract)
    requires Inv(l) && id in s.actions && id in s.decisions && SnapshotFor(s, id).Some?
    requires id in l.actions && id in l.decisions && l.actions[id].state == Leased
    requires c.actionId == id && c.fields == l.decisions[id].Mutation() && c.target == l.actions[id].target
    requires Admissible(l, c, now) ==> c.target in l.plans
    ensures X.Execute(l, c, now).result.Ok? <==> Admissible(l, c, now) && Acceptable(l.plans[c.target], c.fields)
  {
    ExecuteAlone(l, c, now);
  }

  lemma LeasedIsSame(s: State, l: State, id: ActionId, cid: ConfirmationId, leaseId: LeaseId, now: Time)
    requires id in s.actions && id in s.decisions && SnapshotFor(s, id).Some? && id in l.actions && id in l.leases
    requires l == s.(actions := l.actions, leases := l.leases)
    requires l.actions[id] == s.actions[id].(state := Leased, version := s.actions[id].version + 1)
    requires l.leases[id].id == leaseId && l.leases[id].fencingToken == 1
    ensures X.ContractOf(l, id, l.actions[id], l.decisions[id], l.decisions[id].Mutation(),
                         SnapshotFor(l, id).value.id, cid, l.leases[id]) == BuiltContract(s, id, cid, leaseId)
  {
  }

  /** `execute_action` of a captured action succeeds if and only if it is in time,
      the named confirmation is its own, given, unused and in time, staging is
      open, the target still holds the authorized plan, no other contract was
      bound to it, and the plan store accepts the new text. */
  lemma ExecutesExactly(s: State, id: ActionId, cid: ConfirmationId, leaseId: LeaseId, now: Time)
    requires StartsCaptured(s, id) && B.SnapshotsTaken(s)
    ensures SnapshotFor(s, id).Some?
    ensures ExecutedAction(s, id, cid, leaseId, now).result.Ok? <==> Executable(s, id, cid, leaseId, now)
  {
    assert PastCapture(s, id);
    if now < s.actions[id].expiresAt { ExecutesInTime(s, id, cid, leaseId, now); }
  }

  lemma ExecutedSplits(s: State, id: ActionId, cid: ConfirmationId, leaseId: LeaseId, now: Time)
    requires StartsCaptured(s, id) && SnapshotFor(s, id).Some? && now < s.actions[id].expiresAt
    requires LeaseAction(s, id, leaseId, now).result.Ok?
    ensures var l := LeaseAction(s, id, leaseId, now).state;
            var c := X.ContractForAction(l, id, cid, now);
            ExecutedAction(s, id, cid, leaseId, now).result.Ok? <==>
              X.Usable(s, id, cid) && c.Ok? && X.Execute(l, c.value, now).result.Ok?
  {
  }

  /** In time, the call is the execution of the contract it builds. */
  lemma ExecutedRuns(s: State, id: ActionId, cid: ConfirmationId, leaseId: LeaseId, now: Time)
    requires StartsCaptured(s, id) && B.SnapshotsTaken(s) && now < s.actions[id].expiresAt
    requires SnapshotFor(s, id).Some?
    ensures var l := LeaseAction(s, id, leaseId, now).state;
            ExecutedAction(s, id, cid, leaseId, now).result.Ok? <==>
              X.Usable(s, id, cid) && X.Execute(l, BuiltContract(s, id, cid, leaseId), now).result.Ok?
  {
    var l := LeaseAction(s, id, leaseId, now).state;
    LeaseIsTaken(s, id, leaseId, now);
    ExecutedSplits(s, id, cid, leaseId, now);
    ContractIsBuilt(l, id, cid, now);
    LeasedIsSame(s, l, id, cid, leaseId, now);
  }

  lemma ExecutesInTime(s: State, id: ActionId, cid: ConfirmationId, leaseId: LeaseId, now: Time)
    requires StartsCaptured(s, id) && B.SnapshotsTaken(s) && now < s.actions[id].expiresAt
    requires SnapshotFor(s, id).Some?
    ensures ExecutedAction(s, id, cid, leaseId, now).result.Ok? <==> Executable(s, id, cid, leaseId, now)
  {
    ExecutedRuns(s, id, cid, leaseId, now);
    LeaseIsTaken(s, id, leaseId, now);
    RunsWhen(s, LeaseAction(s, id, leaseId, now).state, id, cid, leaseId, now);
  }

  /** The contract is admissible with its lease if and only if everything else is
      there without it. */
  lemma BuiltIsAdmissible(s: State, l: State, id: ActionId, cid: ConfirmationId, leaseId: LeaseId, now: Time)
    requires StartsCaptured(s, id) && Inv(l) && LeaseLeft(s, l, id, leaseId, now) && now < s.actions[id].expiresAt
    requires SnapshotFor(s, id).Some?
    ensures Executable(s, id, cid, leaseId, now) <==>
            && Admissible(l, BuiltContract(s, id, cid, leaseId), now)
            && Acceptable(l.plans[s.actions[id].target], s.decisions[id].Mutation())
  {
    LeasedIsSame(s, l, id, cid, leaseId, now);
    AdmissibleWhen(l, id, cid, now);
  }

  lemma RunsWhen(s: State, l: State, id: ActionId, cid: ConfirmationId, leaseId: LeaseId, now: Time)
    requires StartsCaptured(s, id) && Inv(l) && LeaseLeft(s, l, id, leaseId, now) && now < s.actions[id].expiresAt
    requires SnapshotFor(s, id).Some?
    ensures X.Usable(s, id, cid) && X.Execute(l, BuiltContract(s, id, cid, leaseId), now).result.Ok? <==>
            Executable(s, id, cid, leaseId, now)
  {
    BuiltIsAdmissible(s, l, id, cid, leaseId, now);
    ExecutesWhen(s, l, id, cid, leaseId, now, BuiltContract(s, id, cid, leaseId));
  }

  /** `request_rollback` of an action that can be rolled back, by an owner, in
      time and for the first time, registers a rollback action that waits for its
      confirmation. */
  lemma RequestRollbackRegisters(s: State, call: V.Call, original: ActionId, now: Time)
    requires Inv(s) && B.SnapshotsTaken(s) && PastCapture(s, original)
    requires s.actions[original].operation == UpdateProjectPlan && s.actions[original].target in s.plans
    requires s.plans[s.actions[original].target].revision == s.actions[original].planRevision + 1
    requires B.Acceptable(s, call, original)
    ensures var r := RequestedRollback(s, call, original, now);
            r.result.Ok? && r.result.value.Allowed? && B.RollbackWaits(s, r.state, call, original)
  {
    B.SafeWhen(s, original);
    var snap := SnapshotFor(s, original).value.id;
    B.AskingRegisters(s, call, original, snap);
    B.AskingSucceeds(s, call, original, snap);
    assert ActionOk(s, original);
    NothingToFlag(s, B.AsAsked(s, call, original), Some(V.Refs(original, snap)), original, now);
  }

  /** An action whose verification failed has been overtaken, so one that can be
      rolled back is not flagged. */
  lemma NothingToFlag(s: State, k: V.Call, refs: Option<V.Refs>, original: ActionId, now: Time)
    requires Inv(s) && original in s.actions && V.Authorize(s, k, refs).result.Ok?
    requires s.actions[original].operation == UpdateProjectPlan && s.actions[original].target in s.plans
    requires s.plans[s.actions[original].target].revision == s.actions[original].planRevision + 1
    ensures var r := V.Authorize(s, k, refs); Flagged(r.state, r.result, original, now) == Reply(r.state, r.result)
  {
    assert ActionOk(s, original);
    AuthorizeRegisters(s, k, refs);
  }

  /** Executing a captured rollback undoes its original if and only if it can be
      undone. */
  lemma RollsBackExactly(s: State, rid: ActionId, oid: ActionId, cid: ConfirmationId, leaseId: LeaseId, now: Time)
    requires Orderly(s) && rid in s.actions && s.actions[rid].rollbackOf == Some(oid)
    requires s.actions[rid].state == SnapshotCaptured && rid !in s.evidence
    ensures ExecutedAction(s, rid, cid, leaseId, now).result == Ok(X.Done(RollbackSucceeded, RolledBack)) <==>
            SnapshotFor(s, oid).Some? && Y.Undoable(s, rid, oid, cid, SnapshotFor(s, oid).value, now)
  {
    Y.UndoableExactly(s, rid, oid, cid, leaseId, now);
  }

  // ----- what a caller learns ----------------------------------------------------------

  /** The key is bound to the action of this decision. */
  predicate BoundTo(s: State, key: Key, d: Decision) {
    key in s.index && s.index[key] in s.decisions && s.decisions[s.index[key]] == d
  }

  /** An allowed request is bound under its key; any other answer left the
      store as it was; no plan was touched. */
  predicate Answered(s: State, t: State, key: Key, r: Result<V.Verdict>) {
    && t.plans == s.plans && t.log == s.log
    && (if r.Ok? && r.value.Allowed? then BoundTo(t, key, r.value.decision) else t == s)
  }

  lemma NewIsBound(s: State, k: V.Call, refs: Option<V.Refs>)
    requires Valid(s) && FindByKey(s, k.request.IndexKey()).None?
    requires V.Authorize(s, k, refs).result.Ok? && V.Authorize(s, k, refs).result.value.Allowed?
    ensures var r := V.Authorize(s, k, refs); Answered(s, r.state, k.request.IndexKey(), r.result)
  {
    V.RegisteredWindow(s, k, refs);
  }

  lemma OthersChangeNothing(s: State, k: V.Call, refs: Option<V.Refs>)
    requires Valid(s)
    requires var r := V.Authorize(s, k, refs).result;
             FindByKey(s, k.request.IndexKey()).Some? || r.Err? || r.value.Denied?
    ensures var r := V.Authorize(s, k, refs); Answered(s, r.state, k.request.IndexKey(), r.result)
  {
  }

  lemma AuthorizeAnswers(s: State, k: V.Call, refs: Option<V.Refs>)
    requires Valid(s)
    ensures var r := V.Authorize(s, k, refs); Answered(s, r.state, k.request.IndexKey(), r.result)
  {
    var r := V.Authorize(s, k, refs).result;
    if FindByKey(s, k.request.IndexKey()).None? && r.Ok? && r.value.Allowed? { NewIsBound(s, k, refs); }
    else { OthersChangeNothing(s, k, refs); }
  }

  /** The advance that flags. */
  lemma FlaggingIs(s: State, id: ActionId, now: Time)
    requires id in s.actions && (s.actions[id].state == VerificationFailed || s.actions[id].state == ExecutionFailed)
    ensures var a := s.actions[id];
            var r := AdvanceRollback(s, id, a.version, {VerificationFailed, ExecutionFailed}, RollbackRequested, now);
            if a.state == VerificationFailed && now < a.expiresAt && a.approver.Some? then
              var b := a.(state := RollbackRequested, version := a.version + 1);
              r == Reply(s.(actions := s.actions[id := b]), Ok(b))
            else r.state == s && r.result.Err?
  {
    AdvancesExactly(s.actions[id], RollbackRequested, Some(now), Some(s.actions[id].requester));
  }

  lemma FlagLeavesPlans(s: State, verdict: Result<V.Verdict>, original: ActionId, now: Time)
    ensures var t := Flagged(s, verdict, original, now).state;
            t.plans == s.plans && t.log == s.log && t.index == s.index && t.decisions == s.decisions
  {
    if FlaggableIn(s, original) { FlaggingIs(s, original, now); }
  }

  predicate SamePlans(s: State, t: State) { t.plans == s.plans && t.log == s.log }

  lemma MarkLeavesPlans(s: State, id: ActionId, version: nat, next: LifecycleState, outcome: Outcome, now: Time)
    ensures SamePlans(s, MarkReconciled(s, id, version, next, outcome, now).state)
  {
  }

  lemma SettleLeavesPlans(s: State, c: Contract, version: nat, verdict: Outcome, now: Time)
    ensures SamePlans(s, X.Settle(s, c, version, verdict, now).state)
  {
    MarkLeavesPlans(s, c.actionId, version, ExecutedPendingVerification, MutationSucceeded, now);
    MarkLeavesPlans(s, c.actionId, version, ReconciliationRequired, MutationNotStarted, now);
  }

  /** A failed original is flagged once its rollback is allowed. */
  lemma FlagsExactly(s: State, verdict: Result<V.Verdict>, original: ActionId, now: Time)
    ensures var r := Flagged(s, verdict, original, now);
            var wanted := && verdict.Ok? && verdict.value.Allowed? && original in s.actions
                          && (s.actions[original].state == VerificationFailed
                              || s.actions[original].state == ExecutionFailed);
            if !wanted then r == Reply(s, verdict)
            else if s.actions[original].state == VerificationFailed && now < s.actions[original].expiresAt
                    && s.actions[original].approver.Some? then
              && r.result == verdict && original in r.state.actions
              && r.state.actions[original].state == RollbackRequested
              && r.state == s.(actions := s.actions[original := r.state.actions[original]])
            else r.state == s && r.result.Err?
  {
    if FlaggableIn(s, original) { FlaggingIs(s, original, now); }
  }

  /** The contract for a reconciliation is built for every action that has had a
      lease, active or not. */
  lemma ReconcileContractExactly(s: State, id: ActionId, cid: ConfirmationId)
    requires Inv(s) && id in s.actions && id in s.decisions && s.actions[id].operation == UpdateProjectPlan
    ensures X.ContractForReconcile(s, id, cid).Ok? <==> id in s.leases && s.actions[id].version >= 1
    ensures X.ContractForReconcile(s, id, cid).Ok? ==>
              var c := X.ContractForReconcile(s, id, cid).value;
              && c.actionId == id && c.target == s.actions[id].target && c.fields == s.decisions[id].Mutation()
              && c.expectedRevision == s.actions[id].planRevision
              && c.expectedDigest == s.decisions[id].identity.targetDigest
              && c.fencingToken == s.leases[id].fencingToken
  {
    assert ActionOk(s, id);
    AuthorityIsWellFormed(s, id);
  }

  lemma ReconcileLeavesPlans(s: State, c: Contract, now: Time, reply: Option<X.ReceiptReply>)
    ensures SamePlans(s, X.Reconcile(s, c, now, reply).state)
  {
    if c.actionId in s.actions && c.target in s.plans {
      SettleLeavesPlans(s, c, s.actions[c.actionId].version, X.Classify(c, s.plans[c.target]), now);
    }
  }

  // ----- the service ------------------------------------------------------------------

  class Service {
    const repository: R.ActionRepository
    const executor: P.BoundedExecutor

    ghost predicate Valid() { executor.repository == repository }

    constructor (r: R.ActionRepository)
      ensures Valid() && repository == r
    {
      repository := r;
      executor := new P.BoundedExecutor(r);
    }

    method Authorize(k: V.Call, refs: Option<V.Refs>) returns (r: Result<V.Verdict>)
      requires repository.Valid()
      modifies repository
      ensures Reply(repository.State(), r) == V.Authorize(old(repository.State()), k, refs)
      ensures Answered(old(repository.State()), repository.State(), k.request.IndexKey(), r)
      ensures r.Ok? ==> Permits(old(repository.switches), k.request.environment)
      ensures r.Ok? && k.request.IndexKey() !in old(repository.index) ==>
                (r.value.Allowed? <==> N.MayBeAllowed(k.policy, k.who, k.request, k.Plan(), k.seen, k.now))
      ensures repository.Valid()
    {
      N.PolicyAllowsExactly(k.policy, k.who, k.request, k.Plan(), k.seen, k.now, k.actionId);
      AuthorizeAnswers(repository.State(), k, refs);
      if !Permits(repository.switches, k.request.environment) { return Err(UnavailableTarget); }
      var existing := FindByKey(repository.View(), k.request.IndexKey());
      assert existing == FindByKey(repository.State(), k.request.IndexKey());
      if existing.Some? {
        var id := existing.value.id;
        if id in repository.decisions && repository.decisions[id].request == k.request {
          return Ok(V.Allowed(repository.decisions[id]));
        }
        return Err(IdempotencyConflict);
      }
      var verdict := V.Judge(k);
      if verdict.Denied? { return Ok(verdict); }
      var done := Register(verdict.decision, refs);
      r := if done.Err? then Err(done.error) else Ok(verdict);
    }

    method Register(d: Decision, refs: Option<V.Refs>) returns (r: Result<()>)
      requires repository.Valid()
      modifies repository
      ensures Reply(repository.State(), r) == V.RegisterAllowed(old(repository.State()), d, refs)
      ensures repository.Valid()
    {
      var planned := Advance(V.FreshAction(d, refs), Planned, Some(d.decidedAt), None);
      if planned.Err? { return Err(planned.error); }
      var waiting := Advance(planned.value, ConfirmationRequired, Some(d.decidedAt), None);
      if waiting.Err? { return Err(waiting.error); }
      r := repository.RegisterAction(d, waiting.value);
    }

    method RequestConfirmation(id: ActionId, pending: ConfirmationId, now: Time) returns (r: Result<ConfirmationId>)
      requires repository.Valid()
      modifies repository`bindings
      ensures Reply(repository.State(), r) == V.RequestConfirmation(old(repository.State()), id, pending, now)
      ensures repository.Valid()
    {
      if id !in repository.decisions { return Err(ConfirmationMismatch); }
      var d := repository.decisions[id];
      if d.IsExpired(now) { return Err(ExpiredPlan); }
      var view := repository.View();
      assert forall states :: HasBinding(view, id, states) == HasBinding(repository.State(), id, states);
      if HasBinding(view, id, {BindingRequested}) {
        var b := repository.bindings;
        return if pending in b && b[pending].actionId == id && b[pending].state == BindingRequested
               then Ok(pending) else Err(ConfirmationMismatch);
      }
      if HasBinding(view, id, {BindingConfirmed}) { return Err(ConfirmationMismatch); }
      if |repository.bindings| >= V.MAX_BINDINGS { return Err(InvalidRequest); }
      var b := Binding(ConfirmationId(id, d.principal, now), id, d.principal, d.kind, now,
                       V.Min(d.expiresAt, now + CONFIRMATION_TTL), None, BindingRequested);
      if b.id in repository.bindings { return Err(ConfirmationMismatch); }
      repository.bindings := repository.bindings[b.id := b];
      r := Ok(b.id);
    }

    method Confirm(id: ActionId, pending: ConfirmationId, actor: Subject, now: Time) returns (r: Result<Action>)
      requires repository.Valid()
      modifies repository
      ensures Reply(repository.State(), r) == ConfirmDecision(old(repository.State()), id, pending, actor, now)
      ensures r.Ok? <==> ConfirmPossible(old(repository.State()), id, pending, actor, now)
      ensures r.Ok? ==> r.value.approver == Some(actor) && r.value.state == Confirmed
      ensures repository.Valid()
    {
      ConfirmsExactly(repository.State(), id, pending, actor, now);
      var asked := RequestConfirmation(id, pending, now);
      if asked.Err? { return Err(asked.error); }
      if id !in repository.actions { return Err(StorageCorrupt); }
      var version := repository.actions[id].version;
      if asked.value !in repository.bindings { return Err(ConfirmationMismatch); }
      var built := V.BuildConfirmation(repository.bindings[asked.value], actor, now);
      if built.Err? { return Err(built.error); }
      r := repository.ConfirmAndAdvance(built.value, built.value.actionId, version, actor, now);
    }

    method CaptureSnapshot(id: ActionId, sid: SnapshotId, now: Time) returns (r: Result<Action>)
      requires repository.Valid()
      modifies repository
      ensures Reply(repository.State(), r) == CaptureCurrent(old(repository.State()), id, sid, now)
      ensures r.Ok? <==>
                && id in old(repository.actions) && old(repository.actions)[id].target in old(repository.plans)
                && var a := old(repository.actions)[id];
                   N.Capturable(old(repository.State()), id, a.version, old(repository.plans)[a.target], now)
      ensures repository.Valid()
    {
      if id in repository.actions && repository.actions[id].target in repository.plans {
        N.CapturesExactly(repository.State(), id, repository.actions[id].version,
                          repository.plans[repository.actions[id].target], sid, now);
      }
      if id !in repository.actions { return Err(ConfirmationMismatch); }
      var a := repository.actions[id];
      if a.state != Confirmed { return Err(StateConflict); }
      if !Permits(repository.switches, a.environment) { return Err(UnavailableTarget); }
      if a.target !in repository.plans { return Err(StaleEvidence); }
      var p := repository.plans[a.target];
      if p.target != a.target || p.revision != a.planRevision { return Err(StaleEvidence); }
      r := repository.CaptureSnapshot(Snapshot(sid, id, p.target, p.environment, p.revision, p), id, a.version, now);
    }

    method ExecuteAction(id: ActionId, cid: ConfirmationId, leaseId: LeaseId, now: Time) returns (r: Result<X.Done>)
      requires Valid()
      requires repository.Valid()
      modifies repository
      ensures Reply(repository.State(), r) == ExecutedAction(old(repository.State()), id, cid, leaseId, now)
      ensures StartsCaptured(old(repository.State()), id) && r.Ok? ==>
                Completed(old(repository.State()), repository.State(), id, now)
      ensures Replays(old(repository.State()), repository.State(), id, now, r)
      ensures repository.Valid()
    {
      ghost var s := repository.State();
      ExecutedReplays(s, id, cid, leaseId, now);
      if StartsCaptured(s, id) && ExecutedAction(s, id, cid, leaseId, now).result.Ok? {
        ExecuteActionCompletes(s, id, cid, leaseId, now);
      }
      if id !in repository.actions { return Err(ConfirmationMismatch); }
      var a := repository.actions[id];
      if a.IsExpired(now) { return Err(ExpiredPlan); }
      if Concluded(a.state) {
        return Ok(X.Done(if id in repository.outcomes then repository.outcomes[id] else MutationNotStarted, a.state));
      }
      if a.rollbackOf.Some? {
        r := executor.ExecuteRollback(id, a.rollbackOf.value, cid, leaseId, now);
        return;
      }
      if id !in repository.decisions { return Err(StorageCorrupt); }
      assert X.Usable(repository.View(), id, cid) == X.Usable(repository.State(), id, cid);
      if !X.Usable(repository.View(), id, cid) { return Err(ConfirmationMismatch); }
      var snap := repository.SnapshotFor(id);
      if snap.None? { return Err(StaleEvidence); }
      r := LeaseAndExecute(id, cid, leaseId, now);
    }

    method LeaseAndExecute(id: ActionId, cid: ConfirmationId, leaseId: LeaseId, now: Time) returns (r: Result<X.Done>)
      requires Valid() && id in repository.actions
      requires repository.Valid()
      modifies repository
      ensures Reply(repository.State(), r) == LeasedAndExecuted(old(repository.State()), id, cid, leaseId, now)
      ensures repository.Valid()
    {
      if repository.actions[id].state == SnapshotCaptured {
        var leased := repository.AcquireLease(id, repository.actions[id].version, leaseId, now);
        if leased.Err? { return Err(leased.error); }
      }
      ContractIgnoresLog(repository.State(), id, cid, now);
      var c := X.ContractForAction(repository.View(), id, cid, now);
      if c.Err? { return Err(c.error); }
      r := executor.Execute(c.value, now);
    }

    method RequestRollback(call: V.Call, original: ActionId, now: Time) returns (r: Result<V.Verdict>)
      requires repository.Valid()
      modifies repository
      ensures Reply(repository.State(), r) == RequestedRollback(old(repository.State()), call, original, now)
      ensures repository.plans == old(repository.plans)
      ensures r.Ok? ==>
                && original in old(repository.actions) && original in old(repository.decisions)
                && old(repository.actions)[original].target in old(repository.plans)
                && N.SafeToRollBack(old(repository.State()), original)
      ensures r.Ok? && r.value.Allowed? ==>
                && original in old(repository.actions)
                && BoundTo(repository.State(), V.RollbackRequest(old(repository.actions)[original]).IndexKey(),
                           r.value.decision)
      ensures repository.Valid()
    {
      if original !in repository.actions || original !in repository.decisions { return Err(ConfirmationMismatch); }
      var o := repository.actions[original];
      if o.target !in repository.plans { return Err(PlanRefused); }
      N.SafeExactly(repository.State(), original);
      var snap := repository.SnapshotFor(original);
      var p := repository.plans[o.target];
      if snap.None? || G.PlanRollback(o, snap, p, repository.decisions[original].Mutation()) != G.Safe {
        return Err(StateConflict);
      }
      r := Authorize(call.(request := V.RollbackRequest(o), seen := Some(p)), Some(V.Refs(original, snap.value.id)));
      r := Flag(r, original, now);
    }

    /** The second half of `RequestRollback`. */
    method Flag(verdict: Result<V.Verdict>, original: ActionId, now: Time) returns (r: Result<V.Verdict>)
      requires repository.Valid()
      modifies repository
      ensures Reply(repository.State(), r) == Flagged(old(repository.State()), verdict, original, now)
      ensures repository.plans == old(repository.plans) && repository.index == old(repository.index)
      ensures repository.decisions == old(repository.decisions) && (r == verdict || r.Err?)
      ensures repository.Valid()
    {
      FlagLeavesPlans(repository.State(), verdict, original, now);
      if verdict.Err? || verdict.value.Denied? || original !in repository.actions { return verdict; }
      var current := repository.actions[original];
      if current.state != VerificationFailed && current.state != ExecutionFailed { return verdict; }
      var flagged := repository.AdvanceRollback(original, current.version, {VerificationFailed, ExecutionFailed},
                                                RollbackRequested, now);
      r := if flagged.Err? then Err(flagged.error) else verdict;
    }

    method ReconcileAction(id: ActionId, cid: ConfirmationId, now: Time, reply: Option<X.ReceiptReply>)
      returns (r: Result<X.Reconciled>)
      requires Valid()
      requires repository.Valid()
      modifies repository
      ensures var c := X.ContractForReconcile(old(repository.State()), id, cid);
              Reply(repository.State(), r) ==
                if c.Err? then Reply(old(repository.State()), Err(c.error))
                else X.Reconcile(old(repository.State()), c.value, now, reply)
      ensures repository.plans == old(repository.plans)
      ensures r.Ok? && id in old(repository.outcomes) && old(repository.outcomes)[id] != UnknownOutcome ==>
                r.value == X.Reconciled(old(repository.outcomes)[id], None)
                && repository.State() == old(repository.State())
      ensures repository.Valid()
    {
      assert X.ContractForReconcile(repository.View(), id, cid) == X.ContractForReconcile(repository.State(), id, cid);
      var c := X.ContractForReconcile(repository.View(), id, cid);
      if c.Err? { return Err(c.error); }
      ReconcileLeavesPlans(repository.State(), c.value, now, reply);
      r := executor.Reconcile(c.value, now, reply);
    }
  }

  /** Once an action's verification has failed, asking for its rollback is
      refused at every later point of the run, and changes nothing. */
  lemma FailedActionCannotBeRolledBack(max: nat, t0: Time, es: seq<Protocol.Event>, fs: seq<Protocol.Event>,
                                       id: ActionId, call: V.Call, now: Time)
    requires var s := T.After(max, t0, es).st; id in s.actions && s.actions[id].state == VerificationFailed
    ensures var t := Protocol.Run(T.After(max, t0, es), fs).st;
            RequestedRollback(t, call, id, now) == Reply(t, Err(StateConflict))
  {
    T.FailedVerificationIsFinal(max, t0, es, fs, id);
  }

  lemma ContractIgnoresLog(s: State, id: ActionId, cid: ConfirmationId, now: Time)
    ensures X.ContractForAction(s.(log := []), id, cid, now) == X.ContractForAction(s, id, cid, now)
  {
  }
}
