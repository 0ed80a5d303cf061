/** Authorization policy (control_plane/policy.py), confirmation service
    (control_plane/approval.py) and the service verbs that register, confirm
    and snapshot an action (control_plane/service.py). */
module Service {
  import opened Types
  import opened Lifecycle
  import opened Plans
  import opened KillSwitch
  import opened Store
  import opened Gate

  const MAX_BINDINGS: nat := 256

  datatype Principal = Principal(
    subject: Subject, verified: bool, authenticatedAt: Time, expiresAt: Time, owner: bool)
  {
    predicate IsUsable(now: Time) { verified && now < expiresAt }
  }

  /** A planner's plan; it is created for one request and lives PLAN_TTL. */
  datatype ActionPlan = ActionPlan(id: nat, digest: nat, request: Request, createdAt: Time, expiresAt: Time)

  function MakePlan(id: nat, digest: nat, request: Request, now: Time): ActionPlan {
    ActionPlan(id, digest, request, now, now + PLAN_TTL)
  }

  datatype Policy = Policy(version: nat, scopes: set<(Target, Environment)>, kind: ConfirmationKind)

  datatype PolicyCode =
    | UnverifiedIdentity | ExpiredIdentity | MissingRole | EnvironmentNotAllowed | TargetNotAllowed
    | PlanMissing | PlanDisabled | PlanEnvironmentMismatch | PlanExpired | FieldNotAllowed | InvalidPolicyRequest

  datatype Verdict = Denied(code: PolicyCode) | Allowed(decision: Decision)

  function Min(a: Time, b: Time): Time { if a < b then a else b }

  /** The decision window: five minutes, and never past the plan. */
  function Allow(policy: Policy, identity: Identity, subject: Subject, moment: Time, planExpiresAt: Time,
                 request: Request)
    : Decision
  {
    Decision(identity, request, subject, moment, Min(moment + DECISION_TTL, planExpiresAt), policy.kind, planExpiresAt)
  }

  function FieldsAllowed(request: Request): bool {
    match request.operation
    case UpdateProjectPlan =>
      MutationFields(request.metadata) != map[] && MutationFields(request.metadata).Keys <= ALLOWED_FIELDS
    case RollbackProjectPlan => request.metadata == map[]
  }

  /** `_evaluate`: deny by default, in the order of the code.  `actionId` is
      the digest of the identity being derived. */
  function EvaluatePolicy(policy: Policy, who: Principal, request: Request, plan: ActionPlan,
                          current: Option<ProjectPlan>, decidedAt: Option<Time>, actionId: ActionId): (v: Verdict)
    ensures v.Allowed? ==>
      && current.Some? && v.decision.identity.targetDigest == current.value
      && v.decision.identity.targetRevision == current.value.revision
      && v.decision.identity.target == request.target == current.value.target
      && v.decision.identity.environment == request.environment == current.value.environment
      && v.decision.identity.operation == request.operation
      && v.decision.identity.actionId == actionId && v.decision.request == request
      && v.decision.identity.requester == v.decision.principal == who.subject
      && FieldsAllowed(request)
    ensures v.Allowed? ==>
      && v.decision.decidedAt < v.decision.expiresAt <= Min(v.decision.decidedAt + DECISION_TTL, plan.expiresAt)
      && v.decision.planExpiresAt == plan.expiresAt
  {
    var reference := if decidedAt.Some? then decidedAt.value else who.authenticatedAt;
    if !who.verified then Denied(UnverifiedIdentity)
    else if !who.IsUsable(reference) then Denied(ExpiredIdentity)
    else if !who.owner then Denied(MissingRole)
    else if (request.target, request.environment) !in policy.scopes then
      Denied(if exists s :: s in policy.scopes && s.0 == request.target then EnvironmentNotAllowed
             else TargetNotAllowed)
    else if current.None? then Denied(PlanMissing)
    else if !current.value.enabled then Denied(PlanDisabled)
    else if current.value.environment != request.environment then Denied(PlanEnvironmentMismatch) else
    var moment := if decidedAt.Some? then decidedAt.value else plan.createdAt;
    if moment >= plan.expiresAt then Denied(PlanExpired)
    else if !FieldsAllowed(request) then Denied(FieldNotAllowed)
    else if plan.request != request || current.value.target != request.target || current.value.revision < 1 then
      Denied(InvalidPolicyRequest)
    else
      var identity := Identity(actionId, plan.id, plan.digest, current.value.revision, current.value, policy.version,
                               who.subject, request.operation, request.target, request.environment);
      Allowed(Allow(policy, identity, who.subject, moment, plan.expiresAt, request))
  }

  // ----- authorize --------------------------------------------------------

  /** References a rollback action carries to what it undoes. */
  datatype Refs = Refs(original: ActionId, snapshot: SnapshotId)

  function FreshAction(d: Decision, refs: Option<Refs>): Action {
    var i := d.identity;
    Action(i.actionId, i.planId, i.planDigest, d.request.operation, i.target, i.environment, i.policyVersion,
           Requested, i.requester, Mc616d2V1, OwnerConfirmation, None, d.request.token,
           d.decidedAt, d.expiresAt, 0, i.targetRevision,
           if refs.Some? then Some(refs.value.original) else None,
           if refs.Some? then Some(refs.value.snapshot) else None)
  }

  /** `_register_allowed_action`: the action enters the store already waiting
      for confirmation, two transitions on. */
  function RegisterAllowed(s: State, d: Decision, refs: Option<Refs>): (r: Reply<()>)
    ensures r.state.switches == s.switches
  {
    var planned := Advance(FreshAction(d, refs), Planned, Some(d.decidedAt), None);
    if planned.Err? then Reply(s, Err(planned.error)) else
    var waiting := Advance(planned.value, ConfirmationRequired, Some(d.decidedAt), None);
    if waiting.Err? then Reply(s, Err(waiting.error)) else RegisterAction(s, d, waiting.value)
  }

  /** What a call of `authorize` brings along besides the stored state:
      `seen` is the target's plan as this call read it. */
  datatype Call = Call(
    policy: Policy, who: Principal, request: Request, planId: nat, planDigest: nat, planTime: Time,
    now: Option<Time>, seen: Option<ProjectPlan>, actionId: ActionId)
  {
    /** The planner's plan for the request, made at `planTime`. */
    function Plan(): ActionPlan { MakePlan(planId, planDigest, request, planTime) }
  }

  function Judge(k: Call): Verdict {
    EvaluatePolicy(k.policy, k.who, k.request, k.Plan(), k.seen, k.now, k.actionId)
  }

  /** Replays the stored decision for an equal request under a known key,
      conflicts for a different one, otherwise decides and registers. */
  function Authorize(s: State, k: Call, refs: Option<Refs>): (r: Reply<Verdict>)
    ensures r.state.switches == s.switches
  {
    if !Permits(s.switches, k.request.environment) then Reply(s, Err(UnavailableTarget)) else
    var existing := FindByKey(s, k.request.IndexKey());
    if existing.Some? then
      if existing.value.id in s.decisions && s.decisions[existing.value.id].request == k.request
      then Reply(s, Ok(Allowed(s.decisions[existing.value.id])))
      else Reply(s, Err(IdempotencyConflict))
    else
      match Judge(k)
      case Denied(code) => Reply(s, Ok(Denied(code)))
      case Allowed(d) =>
        var r := RegisterAllowed(s, d, refs);
        if r.result.Err? then Reply(r.state, Err(r.result.error)) else Reply(r.state, Ok(Allowed(d)))
  }

  /** The rollback request for an original action. */
  function RollbackRequest(original: Action): Request {
    Request(RollbackProjectPlan, original.target, original.id, map[], original.environment)
  }

  // ----- confirmation -----------------------------------------------------

  /** `request_confirmation`; `pending` names the pending confirmation that is
      found when there is one. */
  function RequestConfirmation(s: State, id: ActionId, pending: ConfirmationId, now: Time): (r: Reply<ConfirmationId>)
    ensures r.state.(bindings := s.bindings) == s
  {
    if id !in s.decisions then Reply(s, Err(ConfirmationMismatch)) else
    var d := s.decisions[id];
    if d.IsExpired(now) then Reply(s, Err(ExpiredPlan))
    else if HasBinding(s, id, {BindingRequested}) then
      if pending in s.bindings && s.bindings[pending].actionId == id && s.bindings[pending].state == BindingRequested
      then Reply(s, Ok(pending)) else Reply(s, Err(ConfirmationMismatch))
    else if HasBinding(s, id, {BindingConfirmed}) then Reply(s, Err(ConfirmationMismatch))
    else if |s.bindings| >= MAX_BINDINGS then Reply(s, Err(InvalidRequest)) else
    var b := Binding(ConfirmationId(id, d.principal, now), id, d.principal, d.kind, now,
                     Min(d.expiresAt, now + CONFIRMATION_TTL), None, BindingRequested);
    if b.id in s.bindings then Reply(s, Err(ConfirmationMismatch)) else Reply(PutBinding(s, b), Ok(b.id))
  }

  /** `build_confirmation`: validates the confirming act. */
  function BuildConfirmation(b: Binding, actor: Subject, now: Time): Result<Binding> {
    if b.IsExpired(now) then Err(ExpiredPlan)
    else if b.state != BindingRequested then Err(ConfirmationMismatch)
    else if b.kind == OwnerConfirmation && actor != b.requester then Err(ConfirmationMismatch)
    else if b.kind == DistinctApproval && actor == b.requester then Err(ConfirmationMismatch)
    else Ok(b.(confirmedBy := Some(actor), state := BindingConfirmed))
  }

  function Confirm(s: State, cid: ConfirmationId, version: nat, actor: Subject, now: Time): Reply<Action> {
    if cid !in s.bindings then Reply(s, Err(ConfirmationMismatch)) else
    var built := BuildConfirmation(s.bindings[cid], actor, now);
    if built.Err? then Reply(s, Err(built.error))
    else ConfirmAndAdvance(s, built.value, built.value.actionId, version, actor, now)
  }

  // ----- snapshot ---------------------------------------------------------

  /** `capture_snapshot` of the plan this call read. */
  function Capture(s: State, id: ActionId, version: nat, seen: ProjectPlan, sid: SnapshotId, now: Time): Reply<Action> {
    if id !in s.actions then Reply(s, Err(ConfirmationMismatch))
    else if s.actions[id].state != Confirmed then Reply(s, Err(StateConflict))
    else if !Permits(s.switches, s.actions[id].environment) then Reply(s, Err(UnavailableTarget))
    else if seen.target != s.actions[id].target || seen.revision != s.actions[id].planRevision then
      Reply(s, Err(StaleEvidence))
    else CaptureSnapshot(s, Snapshot(sid, id, seen.target, seen.environment, seen.revision, seen), id, version, now)
  }

  // ----- windows ----------------------------------------------------------

  /** Authority windows nest: the stored action carries exactly the decision's
      window, which ends within five minutes and no later than the plan. */
  lemma RegisteredWindow(s: State, k: Call, refs: Option<Refs>)
    requires IndexOk(s.actions, s.index)
    requires FindByKey(s, k.request.IndexKey()).None?
    requires Authorize(s, k, refs).result.Ok? && Authorize(s, k, refs).result.value.Allowed?
    ensures var t := Authorize(s, k, refs).state;
            var d := Authorize(s, k, refs).result.value.decision;
            var id := d.identity.actionId;
            && id !in s.actions && id in t.actions && t.decisions == s.decisions[id := d]
            && t.actions[id] == FreshAction(d, refs).(state := ConfirmationRequired, version := 2)
            && t.actions == s.actions[id := t.actions[id]] && t.index == s.index[k.request.IndexKey() := id]
            && t == s.(actions := t.actions, decisions := t.decisions, index := t.index)
            && Judge(k) == Allowed(d) && Coherent(d, t.actions[id])
            && t.actions[id].createdAt == d.decidedAt && t.actions[id].expiresAt == d.expiresAt
            && d.decidedAt < d.expiresAt <= Min(d.decidedAt + DECISION_TTL, k.planTime + PLAN_TTL)
  {
    var d := Judge(k).decision;
    var planned := Advance(FreshAction(d, refs), Planned, Some(d.decidedAt), None);
    assert planned.Ok?;
    var waiting := Advance(planned.value, ConfirmationRequired, Some(d.decidedAt), None);
    assert waiting.Ok? && waiting.value == FreshAction(d, refs).(state := ConfirmationRequired, version := 2);
    var r := RegisterAction(s, d, waiting.value);
    assert Authorize(s, k, refs) == Reply(r.state, Ok(Allowed(d)));
    assert waiting.value.IndexKey() == k.request.IndexKey();
  }

  /** A confirmation asked of a live decision gets a window that is neither
      empty nor longer than ten minutes, inside the decision's. */
  lemma ConfirmationWindow(s: State, id: ActionId, pending: ConfirmationId, now: Time)
    requires var r := RequestConfirmation(s, id, pending, now).result; r.Ok? && r.value !in s.bindings
    ensures var r := RequestConfirmation(s, id, pending, now);
            && id in s.decisions && r.result.value in r.state.bindings
            && var b := r.state.bindings[r.result.value];
               && b.actionId == id && b.state == BindingRequested && b.createdAt == now
               && now < b.expiresAt <= Min(s.decisions[id].expiresAt, now + CONFIRMATION_TTL)
               && r.state == PutBinding(s, b)
  {
  }
}
