/** When each decision of the control plane comes out as it does, told from the
    stored values and the arguments alone: who is authorized
    (control_plane/policy.py), what can be rolled back (control_plane/rollback.py),
    what reconciliation answers (control_plane/executor.py), and when an action
    can be confirmed, captured, leased and begun. */
module Conditions {
  import opened Types
  import opened Lifecycle
  import opened Plans
  import opened KillSwitch
  import opened Store
  import opened Gate
  import opened Executor
  import opened Service

  // ----- authorization ------------------------------------------------------

  /** The instant at which an identity is judged, and the one a decision is made at. */
  function JudgedAt(who: Principal, now: Option<Time>): Time { if now.Some? then now.value else who.authenticatedAt }

  function DecidedAt(plan: ActionPlan, now: Option<Time>): Time { if now.Some? then now.value else plan.createdAt }

  /** An update asks for at least one change and for nothing but the title and
      the objective; a rollback asks for nothing of its own. */
  predicate AsksProperly(r: Request) {
    if r.operation == RollbackProjectPlan then r.metadata == map[] else
    && (Title in r.metadata || Objective in r.metadata)
    && (forall f :: f in r.metadata ==> f.Title? || f.Objective? || f.UpdatePlanDigest? || f.ServiceName?
                                        || f.ServiceScope? || f.Atomicity?)
  }

  lemma AskingProperly(r: Request)
    ensures FieldsAllowed(r) <==> AsksProperly(r)
  {
    var m := MutationFields(r.metadata);
    if r.operation == UpdateProjectPlan {
      if m != map[] && m.Keys <= ALLOWED_FIELDS {
        var f :| f in m;
        assert f in ALLOWED_FIELDS && f in r.metadata;
        forall g | g in r.metadata && g !in BINDING_FIELDS ensures g in ALLOWED_FIELDS { assert g in m; }
      }
      if AsksProperly(r) {
        assert Title in r.metadata ==> Title in m;
        assert Objective in r.metadata ==> Objective in m;
        forall g | g in m ensures g in ALLOWED_FIELDS { assert g in r.metadata; }
      }
    }
  }

  /** A verified owner whose authentication still stands. */
  predicate IsOwner(who: Principal, now: Option<Time>) {
    who.verified && JudgedAt(who, now) < who.expiresAt && who.owner
  }

  /** The target's plan is there, enabled, and the one the request is about. */
  predicate Concerns(r: Request, current: Option<ProjectPlan>) {
    && current.Some? && current.value.enabled && current.value.revision >= 1
    && current.value.target == r.target && current.value.environment == r.environment
  }

  predicate MayBeAllowed(policy: Policy, who: Principal, request: Request, plan: ActionPlan,
                         current: Option<ProjectPlan>, now: Option<Time>) {
    && IsOwner(who, now) && (request.target, request.environment) in policy.scopes
    && Concerns(request, current) && AsksProperly(request)
    && plan.request == request && DecidedAt(plan, now) < plan.expiresAt
  }

  /** A request is allowed if and only if a verified owner brings it in time, it
      lies within the policy's scopes, asks for what may be asked, and concerns
      an enabled plan; the decision is made at the instant of the call and
      carries the policy's confirmation rule. */
  lemma PolicyAllowsExactly(policy: Policy, who: Principal, request: Request, plan: ActionPlan,
                            current: Option<ProjectPlan>, now: Option<Time>, id: ActionId)
    ensures var v := EvaluatePolicy(policy, who, request, plan, current, now, id);
            && (v.Allowed? <==> MayBeAllowed(policy, who, request, plan, current, now))
            && (v.Allowed? ==>
                  && v.decision.decidedAt == DecidedAt(plan, now) && v.decision.kind == policy.kind
                  && v.decision.identity.policyVersion == policy.version
                  && v.decision.expiresAt == (if DecidedAt(plan, now) + 300 < plan.expiresAt
                                              then DecidedAt(plan, now) + 300 else plan.expiresAt))
  {
    AskingProperly(request);
  }

  /** A denial names the first thing that is wrong. */
  lemma DenialNamesFault(policy: Policy, who: Principal, request: Request, plan: ActionPlan,
                         current: Option<ProjectPlan>, now: Option<Time>, id: ActionId)
    requires EvaluatePolicy(policy, who, request, plan, current, now, id).Denied?
    ensures var listed := (request.target, request.environment) in policy.scopes;
            match EvaluatePolicy(policy, who, request, plan, current, now, id).code
            case UnverifiedIdentity => !who.verified
            case ExpiredIdentity => who.verified && JudgedAt(who, now) >= who.expiresAt
            case MissingRole => who.verified && JudgedAt(who, now) < who.expiresAt && !who.owner
            case EnvironmentNotAllowed =>
              IsOwner(who, now) && !listed && exists e :: (request.target, e) in policy.scopes
            case TargetNotAllowed => IsOwner(who, now) && forall e :: (request.target, e) !in policy.scopes
            case PlanMissing => IsOwner(who, now) && listed && current.None?
            case PlanDisabled => IsOwner(who, now) && listed && current.Some? && !current.value.enabled
            case PlanEnvironmentMismatch =>
              IsOwner(who, now) && listed && current.Some? && current.value.environment != request.environment
            case PlanExpired => IsOwner(who, now) && listed && DecidedAt(plan, now) >= plan.expiresAt
            case FieldNotAllowed => IsOwner(who, now) && listed && !AsksProperly(request)
            case InvalidPolicyRequest =>
              && IsOwner(who, now) && listed && AsksProperly(request)
              && (plan.request != request || !Concerns(request, current))
  {
    AskingProperly(request);
    if s :| s in policy.scopes && s.0 == request.target { assert (request.target, s.1) in policy.scopes; }
  }

  // ----- rollback -----------------------------------------------------------

  /** The snapshot holds the target's plan as it was when the action was
      authorized. */
  predicate HoldsAuthorized(a: Action, snap: Snapshot) {
    && snap.actionId == a.id && snap.target == snap.payload.target == a.target && snap.environment == a.environment
    && snap.revision == snap.payload.revision == a.planRevision
  }

  predicate SafeToRollBack(s: State, id: ActionId)
    requires id in s.actions && id in s.decisions && s.actions[id].target in s.plans
  {
    var a, m := s.actions[id], s.decisions[id].Mutation();
    && a.operation == UpdateProjectPlan && a.state != RolledBack
    && SnapshotFor(s, id).Some? && HoldsAuthorized(a, SnapshotFor(s, id).value)
    && m != map[] && (forall f :: f in m ==> f.Title? || f.Objective?)
    && s.plans[a.target].revision == a.planRevision + 1
  }

  /** A rollback is planned as safe if and only if the action is an update that
      was not rolled back, its snapshot holds the authorized plan, and the target
      stands exactly one revision past it. */
  lemma SafeExactly(s: State, id: ActionId)
    requires id in s.actions && id in s.decisions && s.actions[id].target in s.plans
    ensures RollbackSafety(s, id) == Safe <==> SafeToRollBack(s, id)
  {
    var m := s.decisions[id].Mutation();
    if forall f :: f in m ==> f.Title? || f.Objective? { assert m.Keys <= ALLOWED_FIELDS; }
    if m.Keys <= ALLOWED_FIELDS { forall f | f in m ensures f.Title? || f.Objective? { assert f in ALLOWED_FIELDS; } }
  }

  // ----- reconciliation -------------------------------------------------------

  /** The requested content stands as the revision after the expected one. */
  predicate Stands(c: Contract, p: ProjectPlan) {
    && p.revision == c.expectedRevision + 1
    && (Title in c.fields ==> p.title == c.fields[Title])
    && (Objective in c.fields ==> p.objective == c.fields[Objective])
  }

  /** The authorized plan is still there. */
  predicate Untouched(c: Contract, p: ProjectPlan) { p.revision == c.expectedRevision && p == c.expectedDigest }

  /** One action moved on and one outcome was recorded; nothing else is different. */
  predicate Recorded(s: State, t: State, id: ActionId, next: LifecycleState, outcome: Outcome) {
    && id in s.actions && id in t.actions
    && t.actions[id] == s.actions[id].(state := next, version := s.actions[id].version + 1)
    && t == s.(actions := s.actions[id := t.actions[id]], outcomes := s.outcomes[id := outcome])
  }

  /** States from which a conclusion can be recorded. */
  predicate CanConclude(a: Action, success: bool, now: Time) {
    && now < a.expiresAt && a.approver.Some?
    && if success then a.state.Running?
       else a.state.Leased? || a.state.Running? || a.state.VerificationFailed? || a.state.CancelRequested?
            || a.state.TimedOut? || a.state.Interrupted?
  }

  /** The receipt store's answer is about this very attempt. */
  predicate About(s: State, c: Contract, reply: Option<ReceiptReply>) {
    && reply.Some? && reply.value.actionId == c.actionId && reply.value.token == c.fencingToken
    && c.actionId in s.evidence && reply.value.digest == s.evidence[c.actionId]
  }

  /** A conclusion is recorded and answered, or the action cannot take it. */
  predicate Concludes(s: State, t: State, c: Contract, success: bool, now: Time, r: Result<Reconciled>)
    requires c.actionId in s.actions
  {
    var next := if success then ExecutedPendingVerification else ReconciliationRequired;
    var verdict := if success then MutationSucceeded else MutationNotStarted;
    if CanConclude(s.actions[c.actionId], success, now)
    then Recorded(s, t, c.actionId, next, verdict) && r == Ok(Reconciled(verdict, None))
    else t == s && r == Err(LifecycleRefused)
  }

  /** The whole answer of `reconcile`, and what it records. */
  predicate Reconciles(s: State, t: State, c: Contract, now: Time, reply: Option<ReceiptReply>, r: Result<Reconciled>) {
    var id := c.actionId;
    if id !in s.actions then t == s && r == Err(Refused(ActionMissing))
    else if id !in s.outcomes then t == s && r == Err(InvalidRequest)
    else if s.outcomes[id] != UnknownOutcome then t == s && r == Ok(Reconciled(s.outcomes[id], None))
    else if c.target !in s.plans then t == s && r == Err(PlanRefused)
    else if Stands(c, s.plans[c.target]) then Concludes(s, t, c, true, now, r)
    else if Untouched(c, s.plans[c.target]) then Concludes(s, t, c, false, now, r)
    else t == s && r == Ok(Reconciled(UnknownOutcome, if About(s, c, reply) then reply.value.status else None))
  }

  lemma ConclusionAdvances(a: Action, success: bool, now: Time)
    ensures var next := if success then ExecutedPendingVerification else ReconciliationRequired;
            Advance(a, next, Some(now), Some(a.requester)) ==
            if CanConclude(a, success, now) then Ok(a.(state := next, version := a.version + 1))
            else Err(LifecycleRefused)
  {
  }

  lemma MarkRecords(s: State, id: ActionId, success: bool, now: Time)
    requires id in s.actions
    ensures var next := if success then ExecutedPendingVerification else ReconciliationRequired;
            var verdict := if success then MutationSucceeded else MutationNotStarted;
            var r := MarkReconciled(s, id, s.actions[id].version, next, verdict, now);
            if CanConclude(s.actions[id], success, now)
            then Recorded(s, r.state, id, next, verdict) && r.result.Ok?
            else r.state == s && r.result == Err(LifecycleRefused)
  {
    ConclusionAdvances(s.actions[id], success, now);
  }

  lemma SettleRecords(s: State, c: Contract, success: bool, now: Time)
    requires c.actionId in s.actions
    ensures var next := if success then ExecutedPendingVerification else ReconciliationRequired;
            var verdict := if success then MutationSucceeded else MutationNotStarted;
            var r := Settle(s, c, s.actions[c.actionId].version, verdict, now);
            if CanConclude(s.actions[c.actionId], success, now)
            then Recorded(s, r.state, c.actionId, next, verdict) && r.result == Ok(verdict)
            else r.state == s && r.result == Err(LifecycleRefused)
  {
    MarkRecords(s, c.actionId, success, now);
  }

  lemma ConclusiveAnswers(s: State, c: Contract, now: Time, reply: Option<ReceiptReply>)
    requires c.actionId in s.actions && c.actionId in s.outcomes && s.outcomes[c.actionId] == UnknownOutcome
    requires c.target in s.plans && (Stands(c, s.plans[c.target]) || Untouched(c, s.plans[c.target]))
    ensures var r := Reconcile(s, c, now, reply);
            Concludes(s, r.state, c, Stands(c, s.plans[c.target]), now, r.result)
  {
    SettleRecords(s, c, Stands(c, s.plans[c.target]), now);
  }

  /** `reconcile` on any state with any contract: an outcome already on record is
      returned as it is; otherwise what the plan shows is concluded if the action
      can still take it; and if the plan shows neither, the outcome stays
      unknown. */
  lemma ReconcileAnswers(s: State, c: Contract, now: Time, reply: Option<ReceiptReply>)
    ensures var r := Reconcile(s, c, now, reply); Reconciles(s, r.state, c, now, reply, r.result)
  {
    if c.actionId in s.actions && c.actionId in s.outcomes && s.outcomes[c.actionId] == UnknownOutcome
       && c.target in s.plans && (Stands(c, s.plans[c.target]) || Untouched(c, s.plans[c.target])) {
      ConclusiveAnswers(s, c, now, reply);
    }
  }

  // ----- confirmation ---------------------------------------------------------

  /** A confirmation is pending or given. */
  predicate Active(b: Binding) { b.state == BindingRequested || b.state == BindingConfirmed }

  /** Who may confirm: the requester, or under distinct approval anybody else. */
  predicate MayConfirm(kind: ConfirmationKind, requester: Subject, actor: Subject) {
    if kind == OwnerConfirmation then actor == requester else actor != requester
  }

  predicate Confirmable(s: State, cid: ConfirmationId, version: nat, actor: Subject, now: Time) {
    && cid in s.bindings && s.bindings[cid].state == BindingRequested && now < s.bindings[cid].expiresAt
    && MayConfirm(s.bindings[cid].kind, s.bindings[cid].requester, actor)
    && var id := s.bindings[cid].actionId;
       && id in s.actions
       && var a := s.actions[id];
          && a.version == version && a.state == ConfirmationRequired && now < a.expiresAt
          && MayConfirm(a.kind, a.requester, actor) && (a.approver.Some? ==> a.approver == Some(actor))
  }

  lemma ConfirmationAdvances(a: Action, actor: Subject, now: Time)
    ensures Advance(a, Confirmed, Some(now), Some(actor)) ==
            if a.state == ConfirmationRequired && now < a.expiresAt && MayConfirm(a.kind, a.requester, actor)
               && (a.approver.Some? ==> a.approver == Some(actor))
            then Ok(a.(state := Confirmed, version := a.version + 1, approver := Some(actor)))
            else Err(LifecycleRefused)
  {
  }

  /** The confirmation and its action after the confirming act. */
  predicate Given(s: State, t: State, b: Binding, a: Action, actor: Subject) {
    var after := a.(state := Confirmed, version := a.version + 1, approver := Some(actor));
    t == s.(actions := s.actions[b.actionId := after],
            bindings := s.bindings[b.id := b.(confirmedBy := Some(actor), state := BindingConfirmed)])
  }

  /** A confirming act succeeds if and only if the pending confirmation is in
      time, the actor is one who may confirm both it and the action, and the
      action waits for it at the given version; it is then on record. */
  lemma ConfirmsExactly(s: State, cid: ConfirmationId, version: nat, actor: Subject, now: Time)
    ensures var r := Confirm(s, cid, version, actor, now);
            && (r.result.Ok? <==> Confirmable(s, cid, version, actor, now))
            && (r.result.Ok? ==> Given(s, r.state, s.bindings[cid], s.actions[s.bindings[cid].actionId], actor))
  {
    if cid in s.bindings && s.bindings[cid].actionId in s.actions {
      ConfirmationAdvances(s.actions[s.bindings[cid].actionId], actor, now);
    }
  }

  /** Asking for a confirmation makes one exactly if the decision stands, none is
      active for the action, and there is room. */
  lemma AskingExactly(s: State, id: ActionId, pending: ConfirmationId, now: Time)
    ensures var t := RequestConfirmation(s, id, pending, now).state;
            var cid := ConfirmationId(id, if id in s.decisions then s.decisions[id].principal else 0, now);
            && (t != s <==>
                  && id in s.decisions && now < s.decisions[id].expiresAt
                  && (forall c :: c in s.bindings && s.bindings[c].actionId == id ==> !Active(s.bindings[c]))
                  && |s.bindings| < 256 && cid !in s.bindings)
            && (t != s ==>
                  && t == s.(bindings := s.bindings[cid := t.bindings[cid]])
                  && var b, d := t.bindings[cid], s.decisions[id];
                     && b.id == cid && b.actionId == id && b.requester == d.principal && b.kind == d.kind
                     && b.createdAt == now && b.confirmedBy == None && b.state == BindingRequested
                     && b.expiresAt == if d.expiresAt < now + 600 then d.expiresAt else now + 600)
  {
    var t := RequestConfirmation(s, id, pending, now).state;
    if t != s { assert t.bindings.Keys != s.bindings.Keys; }
  }

  // ----- capture, lease and start -------------------------------------------------

  predicate Capturable(s: State, id: ActionId, version: nat, seen: ProjectPlan, now: Time) {
    && id in s.actions
    && var a := s.actions[id];
       && a.state == Confirmed && a.version == version && now < a.expiresAt
       && a.environment == Staging && Staging in s.switches && s.switches[Staging].state == Disengaged
       && seen.target == a.target && seen.revision == a.planRevision
  }

  /** A snapshot is taken if and only if the action is confirmed and in time,
      staging is open, and the plan read is at the authorized revision; it holds
      that plan. */
  lemma CapturesExactly(s: State, id: ActionId, version: nat, seen: ProjectPlan, sid: SnapshotId, now: Time)
    ensures var r := Capture(s, id, version, seen, sid, now);
            && (r.result.Ok? <==> Capturable(s, id, version, seen, now))
            && (r.result.Err? ==> r.state == s)
            && (r.result.Ok? ==>
                  && r.result.value == s.actions[id].(state := SnapshotCaptured, version := version + 1)
                  && r.state == s.(actions := s.actions[id := r.result.value],
                                   snapshots := s.snapshots + [Snapshot(sid, id, seen.target, seen.environment,
                                                                        seen.revision, seen)]))
  {
  }

  predicate Leasable(s: State, id: ActionId, version: nat, now: Time) {
    && id in s.actions
    && var a := s.actions[id];
       && a.state == SnapshotCaptured && a.version == version && now < a.expiresAt && a.approver.Some?
       && (id in s.leases ==> !s.leases[id].granted || s.leases[id].expiresAt <= now)
  }

  /** A lease is granted if and only if the action is captured, confirmed, in
      time and not leased; for five minutes, with a token above every earlier
      one, and for the version the action now has. */
  lemma LeasesExactly(s: State, id: ActionId, version: nat, leaseId: LeaseId, now: Time)
    ensures var r := AcquireLease(s, id, version, leaseId, now);
            && (r.result.Ok? <==> Leasable(s, id, version, now))
            && (r.result.Err? ==> r.state == s)
            && (r.result.Ok? ==>
                  && r.result.value == s.actions[id].(state := Leased, version := version + 1)
                  && id in r.state.leases
                  && r.state == s.(actions := s.actions[id := r.result.value],
                                   leases := s.leases[id := r.state.leases[id]])
                  && var l := r.state.leases[id];
                     && l.id == leaseId && l.actionId == id && l.granted
                     && l.grantedAt == now && l.expiresAt == now + 300
                     && l.actionVersion == version + 1
                     && (id in s.leases ==> l.fencingToken > s.leases[id].fencingToken) && l.fencingToken >= 1)
  {
  }

  predicate Beginnable(s: State, id: ActionId, version: nat, cid: ConfirmationId, now: Time) {
    && id in s.actions && s.actions[id].state == Leased && s.actions[id].version == version
    && now < s.actions[id].expiresAt && s.actions[id].approver.Some?
    && cid in s.bindings && s.bindings[cid].state == BindingConfirmed
  }

  /** Execution begins if and only if the action is leased, confirmed and in
      time, and the named confirmation has been given and not been used; it is
      used up by that. */
  lemma BeginsExactly(s: State, id: ActionId, version: nat, cid: ConfirmationId, now: Time)
    ensures var r := BeginExecution(s, id, version, cid, now);
            && (r.result.Ok? <==> Beginnable(s, id, version, cid, now))
            && (r.result.Err? ==> r.state == s)
            && (r.result.Ok? ==>
                  && r.result.value == s.actions[id].(state := Running, version := version + 1)
                  && r.state == s.(actions := s.actions[id := r.result.value],
                                   bindings := s.bindings[cid := s.bindings[cid].(state := BindingConsumed)]))
  {
  }

  /** A verification is recorded if and only if the action awaits it. */
  lemma RecordsExactly(s: State, id: ActionId, version: nat, success: bool, now: Time)
    ensures var r := RecordVerification(s, id, version, success, now);
            && (r.result.Ok? <==>
                  && id in s.actions && s.actions[id].state == ExecutedPendingVerification
                  && s.actions[id].version == version && now < s.actions[id].expiresAt && s.actions[id].approver.Some?)
            && (r.result.Err? ==> r.state == s)
            && (r.result.Ok? ==>
                  Recorded(s, r.state, id, if success then VerifiedSuccess else VerificationFailed,
                           if success then ReadBackSucceeded else ReadBackFailed))
  {
  }

  // ----- when an execution is let through ----------------------------------------

  /** The executor's first check. */
  lemma WorldExactly(s: State, c: Contract, now: Time)
    ensures ValidateWorld(s, c, now).Ok? <==>
      && c.actionId in s.actions
      && var a := s.actions[c.actionId];
         && a.version == c.actionVersion && a.operation == UpdateProjectPlan
         && a.target == c.target && a.environment == c.environment && a.planId == c.planId
         && a.planRevision == c.expectedRevision && now < c.expiresAt && now < a.expiresAt
         && c.environment == Staging && Staging in s.switches && s.switches[Staging].state == Disengaged
         && s.switches[Staging].epoch == c.killSwitchEpoch
  {
  }

  predicate LeaseHeld(s: State, c: Contract, now: Time) {
    && c.actionId in s.leases
    && var l := s.leases[c.actionId];
       l.granted && now < l.expiresAt && l.id == c.leaseId && l.fencingToken == c.fencingToken
  }

  /** The final gate allows an attempt if and only if the action is live at the
      version of the contract and not of the old protocol, no other contract is
      bound to it, its own confirmation is in time and unused, its snapshot and
      its target are at the expected revision, the plan is the expected one, the
      lease is held, and staging is open since the epoch of the contract. */
  lemma GateAllowsExactly(s: State, c: Contract, now: Time)
    ensures Evaluate(s, c, now) == GateAllowed <==>
      && c.actionId in s.actions
      && var a := s.actions[c.actionId];
         && !(Terminal(a.state) && a.state != RollbackUnavailable)
         && a.version == c.actionVersion && now < a.expiresAt && now < c.expiresAt && a.protocol == Mc616d2V1
         && (c.actionId in s.evidence ==> s.evidence[c.actionId] == c)
         && c.capabilityVersion == 1 && c.environment == Staging && a.policyVersion == c.policyVersion
         && c.confirmationId in s.bindings && s.bindings[c.confirmationId].actionId == c.actionId
         && now < s.bindings[c.confirmationId].expiresAt && s.bindings[c.confirmationId].state != BindingConsumed
         && SnapshotFor(s, c.actionId).Some? && SnapshotFor(s, c.actionId).value.revision == c.expectedRevision
         && SnapshotFor(s, c.actionId).value.target == c.target
         && c.target in s.plans && s.plans[c.target].revision == c.expectedRevision
         && s.plans[c.target] == c.expectedDigest
         && LeaseHeld(s, c, now)
         && Staging in s.switches && s.switches[Staging].state == Disengaged
         && s.switches[Staging].epoch == c.killSwitchEpoch
  {
  }

  /** The executor's last checks. */
  lemma PreconditionsExactly(s: State, c: Contract, seen: LifecycleState, now: Time)
    ensures Preconditions(s, c, seen, now).Ok? <==>
      && seen in {SnapshotCaptured, Leased, Running, ExecutedPendingVerification}
      && c.confirmationId in s.bindings && s.bindings[c.confirmationId].actionId == c.actionId
      && now < s.bindings[c.confirmationId].expiresAt
      && (seen == Leased ==> s.bindings[c.confirmationId].state != BindingConsumed)
      && SnapshotFor(s, c.actionId).Some?
      && var snap := SnapshotFor(s, c.actionId).value;
         && snap.actionId == c.actionId && snap.id == c.snapshotId && snap.revision == c.expectedRevision
         && snap.target == c.target && snap.environment == c.environment
         && LeaseHeld(s, c, now) && s.leases[c.actionId].actionVersion == c.actionVersion
         && c.target in s.plans && s.plans[c.target].revision == c.expectedRevision
         && s.plans[c.target] == c.expectedDigest
  {
  }

  // ----- why an execution is refused ---------------------------------------------

  /** What is wrong when the gate answers with this code. */
  predicate GateFault(s: State, c: Contract, now: Time, code: GateCode) {
    var id := c.actionId;
    && (code == GateActionMissing <==> id !in s.actions)
    && (id in s.actions ==>
          var a := s.actions[id];
          match code
          case GateActionTerminal => Terminal(a.state)
          case GateStaleActionVersion => a.version != c.actionVersion
          case GateActionExpired => now >= a.expiresAt
          case GateLegacyMutationBlocked => a.protocol == LegacyV1
          case GateContractDigestMismatch => id in s.evidence && s.evidence[id] != c
          case GateCapabilityVersionMismatch => c.capabilityVersion != 1
          case GateEnvironmentDenied => c.environment == Production
          case GatePolicyMismatch => a.policyVersion != c.policyVersion
          case GateConfirmationMissing =>
            c.confirmationId !in s.bindings || s.bindings[c.confirmationId].actionId != id
          case GateConfirmationExpired =>
            c.confirmationId in s.bindings && now >= s.bindings[c.confirmationId].expiresAt
          case GateConfirmationConsumed =>
            c.confirmationId in s.bindings && s.bindings[c.confirmationId].state == BindingConsumed
          case GateSnapshotMissing => SnapshotFor(s, id).None?
          case GateSnapshotMismatch =>
            && SnapshotFor(s, id).Some?
            && (SnapshotFor(s, id).value.revision != c.expectedRevision || SnapshotFor(s, id).value.target != c.target)
          case GateStalePlan =>
            c.target !in s.plans || s.plans[c.target] != c.expectedDigest
            || s.plans[c.target].revision != c.expectedRevision
          case GateLeaseMissing => id !in s.leases || !s.leases[id].granted || now >= s.leases[id].expiresAt
          case GateLeaseFenceMismatch =>
            id in s.leases && (s.leases[id].id != c.leaseId || s.leases[id].fencingToken != c.fencingToken)
          case GateKillSwitchEpochMismatch => SwitchFor(s.switches, c.environment).epoch != c.killSwitchEpoch
          case GateKillSwitchEngaged => !Permits(s.switches, c.environment)
          case GateContractExpired => now >= c.expiresAt
          case _ => true)
  }

  /** Every refusal of the gate names something that is wrong. */
  lemma GateNamesFault(s: State, c: Contract, now: Time)
    ensures GateFault(s, c, now, Evaluate(s, c, now))
  {
  }

  /** What is wrong when an execution is refused for this reason. */
  predicate Fault(s: State, c: Contract, now: Time, reason: Refusal) {
    var id := c.actionId;
    && (reason == ActionMissing <==> id !in s.actions)
    && (id in s.actions ==>
          var a := s.actions[id];
          match reason
          case StaleActionVersion => a.version != c.actionVersion
          case OperationMismatch => a.operation == RollbackProjectPlan
          case BindingMismatch =>
            a.target != c.target || a.environment != c.environment || a.planId != c.planId
            || a.planRevision != c.expectedRevision
          case ContractExpired => now >= c.expiresAt
          case ActionExpired => now >= a.expiresAt
          case KillSwitchEpochMismatch => SwitchFor(s.switches, c.environment).epoch != c.killSwitchEpoch
          case KillSwitchEngaged => !Permits(s.switches, c.environment)
          case GateDenied(code) => a.state == Leased && code != GateAllowed
          case InvalidLifecycleState =>
            !(a.state.SnapshotCaptured? || a.state.Leased? || a.state.Running? || a.state.ExecutedPendingVerification?)
          case ConfirmationMissing => c.confirmationId !in s.bindings
          case ConfirmationOfOtherAction =>
            c.confirmationId in s.bindings && s.bindings[c.confirmationId].actionId != id
          case ConfirmationExpired =>
            c.confirmationId in s.bindings && now >= s.bindings[c.confirmationId].expiresAt
          case ConfirmationConsumed =>
            c.confirmationId in s.bindings && s.bindings[c.confirmationId].state == BindingConsumed && a.state == Leased
          case SnapshotMissing => SnapshotFor(s, id).None?
          case SnapshotMismatch =>
            && SnapshotFor(s, id).Some?
            && (SnapshotFor(s, id).value.id != c.snapshotId || SnapshotFor(s, id).value.environment != c.environment
                || SnapshotFor(s, id).value.actionId != id)
          case SnapshotStale =>
            && SnapshotFor(s, id).Some?
            && (SnapshotFor(s, id).value.revision != c.expectedRevision || SnapshotFor(s, id).value.target != c.target)
          case LeaseMissing => id !in s.leases || !s.leases[id].granted || now >= s.leases[id].expiresAt
          case LeaseMismatch => id in s.leases && s.leases[id].id != c.leaseId
          case StaleFencingToken => id in s.leases && s.leases[id].fencingToken != c.fencingToken
          case StaleLease => id in s.leases && s.leases[id].actionVersion != c.actionVersion
          case StalePlan =>
            && c.target in s.plans
            && (s.plans[c.target] != c.expectedDigest || s.plans[c.target].revision != c.expectedRevision)
          case _ => false)
  }

  lemma WorldNamesFault(s: State, c: Contract, now: Time)
    ensures var r := ValidateWorld(s, c, now); r.Err? ==> r.error.Refused? && Fault(s, c, now, r.error.reason)
  {
  }

  lemma PreconditionsNameFault(s: State, c: Contract, now: Time)
    requires c.actionId in s.actions
    ensures var r := Preconditions(s, c, s.actions[c.actionId].state, now);
            r.Err? && r.error.Refused? ==> Fault(s, c, now, r.error.reason)
  {
  }

  /** What binding the evidence changes is no ground for a refusal. */
  lemma FaultIgnoresEvidence(s: State, b: State, c: Contract, now: Time, reason: Refusal)
    requires b == s.(evidence := b.evidence) && Fault(b, c, now, reason)
    ensures Fault(s, c, now, reason)
  {
  }

  lemma PrepareSplits(s: State, c: Contract, now: Time)
    requires Prepare(s, c, now).result.Err? && ValidateWorld(s, c, now).Ok?
    ensures var seen, e := s.actions[c.actionId].state, Prepare(s, c, now).result.error;
            var b := BindFirst(s, c, seen).state;
            && c.actionId in s.actions && b == s.(evidence := b.evidence)
            && (e.Refused? ==>
                  || (e.reason.GateDenied? && seen == Leased && e.reason.code == Evaluate(b, c, now)
                      && e.reason.code != GateAllowed)
                  || Preconditions(b, c, seen, now) == Err(e))
  {
  }

  /** Every refusal of an execution names something that is wrong. */
  lemma RefusalNamesFault(s: State, c: Contract, now: Time)
    ensures var r := Prepare(s, c, now).result; r.Err? && r.error.Refused? ==> Fault(s, c, now, r.error.reason)
  {
    WorldNamesFault(s, c, now);
    var r := Prepare(s, c, now).result;
    if r.Err? && r.error.Refused? && ValidateWorld(s, c, now).Ok? {
      PrepareSplits(s, c, now);
      var b := BindFirst(s, c, s.actions[c.actionId].state).state;
      PreconditionsNameFault(b, c, now);
      if !r.error.reason.GateDenied? { FaultIgnoresEvidence(s, b, c, now, r.error.reason); }
    }
  }

  // ----- the other composites -------------------------------------------------------

  /** A registered action and its decision agree. */
  predicate Agree(d: Decision, a: Action) {
    && a.id == d.identity.actionId && a.planId == d.identity.planId && a.planDigest == d.identity.planDigest
    && a.policyVersion == d.identity.policyVersion && a.planRevision == d.identity.targetRevision
    && a.requester == d.identity.requester && a.token == d.request.token
    && (a.operation == RollbackProjectPlan ==>
          a.rollbackOf.Some? && a.snapshotRef.Some? && a.rollbackOf.value != a.id)
  }

  /** An action is stored exactly if it agrees with its decision, its key and its
      id are new, and there is room; the same action again is accepted and stores
      nothing. */
  lemma RegistersExactly(s: State, d: Decision, a: Action)
    ensures var r, key := RegisterAction(s, d, a), Key(a.target, a.operation, a.token);
            && (r.result.Ok? <==>
                  && Agree(d, a)
                  && (if key in s.index then s.index[key] == a.id
                      else a.id !in s.actions && |s.actions| < s.maxRecords))
            && r.state == (if r.result.Ok? && key !in s.index
                           then s.(decisions := s.decisions[a.id := d], actions := s.actions[a.id := a],
                                   index := s.index[key := a.id])
                           else s)
  {
  }

  /** An outcome is noted exactly for the version that was read, and an unknown one
      is never directly declared not started. */
  lemma NotesExactly(s: State, id: ActionId, version: nat, outcome: Outcome)
    ensures var r := MarkOutcome(s, id, version, outcome);
            && (r.result.Ok? <==>
                  && id in s.actions && s.actions[id].version == version
                  && !(id in s.outcomes && s.outcomes[id] == UnknownOutcome && outcome == MutationNotStarted))
            && r.state == (if r.result.Ok? then s.(outcomes := s.outcomes[id := outcome]) else s)
  {
  }

  /** A contract is bound to an action once and for all. */
  lemma BindsExactly(s: State, id: ActionId, c: Contract)
    ensures var r := BindEvidence(s, id, c);
            && (r.result.Ok? <==> (id in s.evidence ==> s.evidence[id] == c))
            && r.state == (if id in s.evidence then s else s.(evidence := s.evidence[id := c]))
  {
  }

  /** Only the holder releases a lease. */
  lemma ReleasesExactly(s: State, id: ActionId, leaseId: LeaseId, token: nat)
    ensures var r := ReleaseLease(s, id, leaseId, token);
            var holds := id in s.leases && s.leases[id].id == leaseId && s.leases[id].fencingToken == token;
            && r.result == Ok(holds)
            && r.state == (if holds then s.(leases := s.leases[id := s.leases[id].(granted := false)]) else s)
  {
  }

  /** A snapshot is stored exactly if it is of the confirmed action and at its
      revision. */
  lemma StoresExactly(s: State, snap: Snapshot, id: ActionId, version: nat, now: Time)
    ensures var r := CaptureSnapshot(s, snap, id, version, now);
            && (r.result.Ok? <==>
                  && id in s.actions && snap.actionId == id && snap.revision == s.actions[id].planRevision
                  && s.actions[id].state == Confirmed && s.actions[id].version == version
                  && now < s.actions[id].expiresAt)
            && (r.result.Err? ==> r.state == s)
            && (r.result.Ok? ==>
                  && r.result.value == s.actions[id].(state := SnapshotCaptured, version := version + 1)
                  && r.state == s.(actions := s.actions[id := r.result.value], snapshots := s.snapshots + [snap]))
  {
  }

  predicate Mutable(s: State, id: ActionId, version: nat, revision: nat, fields: Fields, now: Time) {
    && id in s.actions && s.actions[id].state == Running && s.actions[id].version == version
    && s.actions[id].target in s.plans && s.plans[s.actions[id].target].revision == revision
    && Plans.Acceptable(s.plans[s.actions[id].target], fields)
  }

  /** What a mutation leaves. */
  predicate Mutated(s: State, t: State, id: ActionId, revision: nat, fields: Fields, now: Time)
    requires id in s.actions && s.actions[id].target in s.plans
  {
    var a, x := s.actions[id], s.actions[id].target;
    && id in t.actions && t.actions[id] == a.(state := ExecutedPendingVerification, version := a.version + 1)
    && x in t.plans && Update(s.plans[x], revision, fields, now) == Ok(t.plans[x])
    && t == s.(actions := s.actions[id := t.actions[id]], plans := s.plans[x := t.plans[x]],
               log := s.log + [Write(x, By(id), Some(s.plans[x]), t.plans[x])],
               outcomes := s.outcomes[id := MutationSucceeded])
  }

  lemma MutationRefused(s: State, id: ActionId, version: nat, revision: nat, fields: Fields, now: Time)
    requires !Mutable(s, id, version, revision, fields, now)
    ensures var r := MutatePlan(s, id, version, revision, fields, now); r.result.Err? && r.state == s
  {
  }

  lemma MutationAdvances(s: State, id: ActionId, version: nat, revision: nat, fields: Fields, now: Time)
    requires Mutable(s, id, version, revision, fields, now)
    ensures var r := MutatePlan(s, id, version, revision, fields, now);
            if now < s.actions[id].expiresAt && s.actions[id].approver.Some?
            then r.result.Ok? && Mutated(s, r.state, id, revision, fields, now) && r.result.value == r.state.actions[id]
            else r.result.Err?
  {
    ConclusionAdvances(s.actions[id], true, now);
  }

  /** A mutation goes through exactly if the action is RUNNING at the version given,
      confirmed and in time, the plan is at the revision given, and the text is
      acceptable; where one of the last two is missing nothing is written. */
  lemma MutatesExactly(s: State, id: ActionId, version: nat, revision: nat, fields: Fields, now: Time)
    ensures var r := MutatePlan(s, id, version, revision, fields, now);
            && (r.result.Ok? <==>
                  && Mutable(s, id, version, revision, fields, now)
                  && now < s.actions[id].expiresAt && s.actions[id].approver.Some?)
            && (r.result.Ok? ==> Mutated(s, r.state, id, revision, fields, now))
            && (!Mutable(s, id, version, revision, fields, now) ==> r.state == s)
  {
    if Mutable(s, id, version, revision, fields, now) { MutationAdvances(s, id, version, revision, fields, now); }
    else { MutationRefused(s, id, version, revision, fields, now); }
  }

  /** A new target starts at revision one, in staging, with clean text. */
  lemma CreatesExactly(target: Target, env: Environment, title: string, objective: string, now: Time, enabled: bool)
    ensures var r := NewPlan(target, env, title, objective, now, enabled);
            && (r.Ok? <==> env == Staging && ValidText(title, 200) && ValidText(objective, 2000))
            && (r.Ok? ==>
                  && r.value.target == target && r.value.environment == Staging && r.value.revision == 1
                  && r.value.title == title && r.value.objective == objective
                  && r.value.createdAt == r.value.updatedAt == now && r.value.enabled == enabled)
  {
  }

  // ----- executing a rollback -------------------------------------------------------------

  /** The checks before a rollback starts. */
  lemma ChecksExactly(s: State, rid: ActionId, oid: ActionId, now: Time)
    ensures RollbackChecks(s, rid, oid, now).Ok? <==>
      && rid in s.actions && oid in s.actions && s.actions[rid].rollbackOf == Some(oid)
      && s.actions[rid].operation == RollbackProjectPlan
      && s.actions[oid].state in {VerificationFailed, ExecutionFailed, RollbackRequested}
      && now < s.actions[rid].expiresAt && now < s.actions[oid].expiresAt
      && s.actions[rid].environment == Staging && Staging in s.switches && s.switches[Staging].state == Disengaged
  {
  }

  /** The restored plan is judged by the text of the snapshot. */
  lemma RestoredExactly(a: Action, snap: Snapshot, p: ProjectPlan)
    ensures RestoredOk(a, snap, p) <==>
      && p.target == a.target && p.environment == a.environment
      && p.title == snap.payload.title && p.objective == snap.payload.objective
  {
    assert Title in RestoreFields(snap) && Objective in RestoreFields(snap);
  }

  /** A verdict on the original is recorded exactly if it is in one of the states
      named, at the version given, and the table allows it. */
  lemma VerdictExactly(s: State, oid: ActionId, version: nat, success: bool, now: Time)
    ensures var next := if success then RolledBack else RollbackFailed;
            var r := AdvanceRollback(s, oid, version, {RollbackRequested}, next, now);
            && (r.result.Ok? <==>
                  && oid in s.actions && s.actions[oid].state == RollbackRequested && s.actions[oid].version == version
                  && now < s.actions[oid].expiresAt && s.actions[oid].approver.Some?)
            && r.state == (if r.result.Ok?
                           then s.(actions := s.actions[oid := s.actions[oid].(state := next, version := version + 1)])
                           else s)
  {
  }

  lemma ConclusionSplits(s: State, c: Contract, oid: ActionId, v: nat, snap: Snapshot, version: nat, now: Time)
    requires c.actionId in s.actions && s.actions[c.actionId].target in s.plans
    requires ConcludeRollback(s, c, oid, v, snap, version, now).result.Ok?
    ensures var success := RestoredOk(s.actions[c.actionId], snap, s.plans[s.actions[c.actionId].target]);
            var r := RecordVerification(s, c.actionId, version, success, now);
            var f := AdvanceRollback(r.state, oid, v, {RollbackRequested},
                                     if success then RolledBack else RollbackFailed, now);
            && r.result.Ok? && f.result.Ok?
            && ConcludeRollback(s, c, oid, v, snap, version, now) ==
               Reply(ReleaseLease(f.state, c.actionId, c.leaseId, c.fencingToken).state,
                     Ok(if success then Done(RollbackSucceeded, RolledBack)
                        else Done(RollbackDidFail, r.result.value.state)))
  {
  }

  /** The target of the rollback holds the text of the snapshot. */
  predicate Holds(s: State, a: Action, snap: Snapshot) {
    && a.target in s.plans
    && var p := s.plans[a.target];
       && p.title == snap.payload.title && p.objective == snap.payload.objective
       && p.target == a.target && p.environment == a.environment
  }

  lemma BothMoved(s: State, m: State, f: State, t: State, rid: ActionId, oid: ActionId, mine: LifecycleState,
                  outcome: Outcome, its: LifecycleState)
    requires Recorded(s, m, rid, mine, outcome) && oid in m.actions && oid != rid
    requires f == m.(actions := m.actions[oid := m.actions[oid].(state := its, version := m.actions[oid].version + 1)])
    requires t == f.(leases := t.leases)
    ensures rid in t.actions && oid in t.actions && t.actions[rid].state == mine && t.actions[oid].state == its
  {
  }

  lemma RecordAnswers(s: State, id: ActionId, version: nat, success: bool, now: Time)
    requires RecordVerification(s, id, version, success, now).result.Ok?
    ensures var r := RecordVerification(s, id, version, success, now);
            id in r.state.actions && r.result.value == r.state.actions[id]
  {
  }

  /** Recording the verification and then the verdict. */
  lemma VerdictMovesBoth(s: State, rid: ActionId, version: nat, oid: ActionId, v: nat, success: bool, now: Time,
                         leaseId: LeaseId, token: nat)
    requires oid != rid && RecordVerification(s, rid, version, success, now).result.Ok?
    requires AdvanceRollback(RecordVerification(s, rid, version, success, now).state, oid, v, {RollbackRequested},
                             if success then RolledBack else RollbackFailed, now).result.Ok?
    ensures var m := RecordVerification(s, rid, version, success, now);
            var f := AdvanceRollback(m.state, oid, v, {RollbackRequested},
                                     if success then RolledBack else RollbackFailed, now);
            var t := ReleaseLease(f.state, rid, leaseId, token).state;
            && rid in t.actions && oid in t.actions
            && m.result.value.state == t.actions[rid].state == (if success then VerifiedSuccess else VerificationFailed)
            && t.actions[oid].state == (if success then RolledBack else RollbackFailed)
  {
    var m := RecordVerification(s, rid, version, success, now);
    var next := if success then RolledBack else RollbackFailed;
    var f := AdvanceRollback(m.state, oid, v, {RollbackRequested}, next, now).state;
    RecordsExactly(s, rid, version, success, now);
    VerdictExactly(m.state, oid, v, success, now);
    ReleasesExactly(f, rid, leaseId, token);
    RecordAnswers(s, rid, version, success, now);
    BothMoved(s, m.state, f, ReleaseLease(f, rid, leaseId, token).state, rid, oid,
              if success then VerifiedSuccess else VerificationFailed,
              if success then ReadBackSucceeded else ReadBackFailed, next);
  }

  /** The whole answer of the end of a rollback: what stands in the plan decides
      the verdict, on both actions. */
  lemma ConcludesRollback(s: State, c: Contract, oid: ActionId, v: nat, snap: Snapshot, version: nat, now: Time)
    requires c.actionId in s.actions && oid != c.actionId && s.actions[c.actionId].target in s.plans
    requires ConcludeRollback(s, c, oid, v, snap, version, now).result.Ok?
    ensures var r, good := ConcludeRollback(s, c, oid, v, snap, version, now), Holds(s, s.actions[c.actionId], snap);
            && c.actionId in r.state.actions && oid in r.state.actions
            && r.result == Ok(if good then Done(RollbackSucceeded, RolledBack)
                              else Done(RollbackDidFail, VerificationFailed))
            && r.state.actions[c.actionId].state == (if good then VerifiedSuccess else VerificationFailed)
            && r.state.actions[oid].state == (if good then RolledBack else RollbackFailed)
  {
    var a := s.actions[c.actionId];
    RestoredExactly(a, snap, s.plans[a.target]);
    ConclusionSplits(s, c, oid, v, snap, version, now);
    VerdictMovesBoth(s, c.actionId, version, oid, v, RestoredOk(a, snap, s.plans[a.target]), now, c.leaseId,
                     c.fencingToken);
  }

  lemma NoPlanNoConclusion(s: State, c: Contract, oid: ActionId, v: nat, snap: Snapshot, version: nat, now: Time)
    requires c.actionId in s.actions && s.actions[c.actionId].target !in s.plans
    ensures ConcludeRollback(s, c, oid, v, snap, version, now) == Reply(s, Err(PlanRefused))
  {
  }
}
