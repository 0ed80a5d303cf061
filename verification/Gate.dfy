/** Pure checks: read-back verification (control_plane/verification.py),
    rollback planning (control_plane/rollback.py) and the final execution gate
    (control_plane/gate.py). */
module Gate {
  import opened Types
  import opened Lifecycle
  import opened Plans
  import opened KillSwitch
  import opened Store

  // ----- verification -----------------------------------------------------

  datatype VerificationCode =
    Passed | TargetMismatch | EnvironmentMismatch | RevisionMismatch | EnabledMismatch | FieldMismatch

  /** Expected post-condition; neither caller in the executor pins a digest. */
  datatype Expected = Expected(target: Target, environment: Environment, revision: nat, enabled: bool, fields: Fields)

  function ObservedField(p: ProjectPlan, f: Field): Option<string> {
    match f
    case Title => Some(p.title)
    case Objective => Some(p.objective)
    case _ => None
  }

  /** The first failing predicate in the fixed order decides. */
  function Verify(e: Expected, p: ProjectPlan): (code: VerificationCode)
    ensures code == Passed <==>
      p.target == e.target && p.environment == e.environment && p.revision == e.revision &&
      p.enabled == e.enabled && e.fields.Keys <= ALLOWED_FIELDS && Carries(p, e.fields)
  {
    if e.target != p.target then TargetMismatch
    else if e.environment != p.environment then EnvironmentMismatch
    else if e.revision != p.revision then RevisionMismatch
    else if e.enabled != p.enabled then EnabledMismatch
    else if forall f :: f in e.fields ==> ObservedField(p, f) == Some(e.fields[f]) then
      assert forall f :: f in e.fields ==> ObservedField(p, f).Some?;
      Passed
    else FieldMismatch
  }

  // ----- rollback planning ------------------------------------------------

  datatype RollbackCode =
    Safe | WrongSnapshot | StaleSnapshot | WrongTarget | NonReversible | FieldNotReversible
    | CurrentStateMismatch | InvalidSnapshot | AlreadyRolledBack

  function PlanRollback(original: Action, snapshot: Option<Snapshot>, current: ProjectPlan,
                        fields: Fields): RollbackCode {
    if snapshot.None? then InvalidSnapshot else
    var snap := snapshot.value;
    if snap.actionId != original.id then WrongSnapshot
    else if snap.target != original.target || snap.environment != original.environment then WrongTarget
    else if snap.revision != original.planRevision then StaleSnapshot
    else if original.operation != UpdateProjectPlan then NonReversible
    else if original.state == RolledBack then AlreadyRolledBack
    else if snap.payload.target != snap.target || snap.payload.revision != snap.revision then InvalidSnapshot
    else if fields == map[] || !(fields.Keys <= ALLOWED_FIELDS) then FieldNotReversible
    else if current.revision != snap.payload.revision + 1 then CurrentStateMismatch
    else Safe
  }

  /** What the service plans for one action in the current state. */
  function RollbackSafety(s: State, id: ActionId): RollbackCode
    requires id in s.actions && id in s.decisions && s.actions[id].target in s.plans
  {
    PlanRollback(s.actions[id], SnapshotFor(s, id), s.plans[s.actions[id].target], s.decisions[id].Mutation())
  }

  /** Fields a rollback restores. */
  function RestoreFields(snap: Snapshot): Fields {
    map[Title := snap.payload.title, Objective := snap.payload.objective]
  }

  // ----- final execution gate ---------------------------------------------

  const CAPABILITY_VERSION: nat := 1

  predicate GateTerminal(s: LifecycleState) {
    s.VerifiedSuccess? || s.ExecutionFailed? || s.RolledBack? || s.RollbackFailed?
    || s.Rejected? || s.Expired? || s.Invalidated?
  }

  /** Re-reads the world and decides, in the order of the code; the executor
      calls it for a mutation, without service evidence or execution binding. */
  function Evaluate(s: State, c: Contract, now: Time): GateCode {
    if c.actionId !in s.actions then GateActionMissing else
    var a := s.actions[c.actionId];
    if GateTerminal(a.state) then GateActionTerminal
    else if a.version != c.actionVersion then GateStaleActionVersion
    else if a.IsExpired(now) then GateActionExpired
    else if a.protocol == LegacyV1 then GateLegacyMutationBlocked
    else if c.actionId in s.evidence && s.evidence[c.actionId] != c then GateContractDigestMismatch
    else if c.capabilityVersion != CAPABILITY_VERSION then GateCapabilityVersionMismatch
    else if c.environment != Staging then GateEnvironmentDenied
    else if a.policyVersion != c.policyVersion then GatePolicyMismatch
    else EvaluateEvidence(s, c, now)
  }

  function EvaluateEvidence(s: State, c: Contract, now: Time): GateCode {
    if c.confirmationId !in s.bindings then GateConfirmationMissing else
    var b := s.bindings[c.confirmationId];
    if b.actionId != c.actionId then GateConfirmationMissing
    else if b.IsExpired(now) then GateConfirmationExpired
    else if b.state == BindingConsumed then GateConfirmationConsumed else
    var snap := SnapshotFor(s, c.actionId);
    if snap.None? then GateSnapshotMissing
    else if snap.value.revision != c.expectedRevision || snap.value.target != c.target then GateSnapshotMismatch
    else if c.target !in s.plans || s.plans[c.target].revision != c.expectedRevision
            || s.plans[c.target] != c.expectedDigest then GateStalePlan else
    var lease := ActiveLease(s, c.actionId, now);
    if lease.None? then GateLeaseMissing
    else if lease.value.id != c.leaseId || lease.value.fencingToken != c.fencingToken then GateLeaseFenceMismatch
    else if SwitchFor(s.switches, c.environment).epoch != c.killSwitchEpoch then GateKillSwitchEpochMismatch
    else if !Permits(s.switches, c.environment) then GateKillSwitchEngaged
    else if c.IsExpired(now) then GateContractExpired
    else GateAllowed
  }

  /** Everything an allowed decision certifies about the state it was made in. */
  lemma AllowedMeans(s: State, c: Contract, now: Time)
    requires Evaluate(s, c, now) == GateAllowed
    ensures c.actionId in s.actions && s.actions[c.actionId].version == c.actionVersion
    ensures now < s.actions[c.actionId].expiresAt && now < c.expiresAt
    ensures c.actionId in s.evidence ==> s.evidence[c.actionId] == c
    ensures c.confirmationId in s.bindings && s.bindings[c.confirmationId].actionId == c.actionId
    ensures s.bindings[c.confirmationId].state != BindingConsumed && now < s.bindings[c.confirmationId].expiresAt
    ensures c.target in s.plans && s.plans[c.target] == c.expectedDigest
    ensures ActiveLease(s, c.actionId, now).Some? && s.leases[c.actionId].fencingToken == c.fencingToken
    ensures c.environment == Staging && SwitchFor(s.switches, Staging).state == Disengaged
    ensures SwitchFor(s.switches, Staging).epoch == c.killSwitchEpoch
  {
    assert EvaluateEvidence(s, c, now) == GateAllowed;
  }
}
