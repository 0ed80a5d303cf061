/** The bounded executor (control_plane/executor.py) and the service code that
    builds its contracts (control_plane/service.py), as compositions of the
    atomic composites of `Store`. */
module Executor {
  import opened Types
  import opened Lifecycle
  import opened Plans
  import opened KillSwitch
  import opened Store
  import opened Gate

  datatype Done = Done(outcome: Outcome, state: LifecycleState)

  // ----- contracts --------------------------------------------------------

  /** A confirmation the contract builders accept: confirmed or consumed. */
  predicate Usable(s: State, id: ActionId, cid: ConfirmationId) {
    && cid in s.bindings && s.bindings[cid].actionId == id
    && (s.bindings[cid].state == BindingConfirmed || s.bindings[cid].state == BindingConsumed)
  }

  function ContractOf(s: State, id: ActionId, a: Action, d: Decision, fields: Fields, snap: SnapshotId,
                      cid: ConfirmationId, lease: Lease)
    : Contract
  {
    Contract(id, a.version, a.target, a.environment, a.planId, a.planRevision, d.identity.targetDigest, fields,
             snap, cid, a.policyVersion, SwitchFor(s.switches, a.environment).epoch,
             lease.id, lease.fencingToken, a.expiresAt, CAPABILITY_VERSION)
  }

  /** `execute_action` after the lease is in place; `cid` is the first of the
      action's usable confirmations that iteration meets. */
  function ContractForAction(s: State, id: ActionId, cid: ConfirmationId, now: Time): Result<Contract> {
    if id !in s.actions then Err(ConfirmationMismatch) else
    var a := s.actions[id];
    if a.IsExpired(now) then Err(ExpiredPlan)
    else if a.rollbackOf.Some? then Err(StateConflict)
    else if id !in s.decisions then Err(StorageCorrupt)
    else if !Usable(s, id, cid) then Err(ConfirmationMismatch)
    else if SnapshotFor(s, id).None? then Err(StaleEvidence)
    else if ActiveLease(s, id, now).None? then Err(StateConflict) else
    var c := ContractOf(s, id, a, s.decisions[id], s.decisions[id].Mutation(), SnapshotFor(s, id).value.id, cid,
                        s.leases[id]);
    if c.WellFormed() then Ok(c) else Err(InvalidRequest)
  }

  /** `_contract_for_action` for a rollback: the mutation is the restore. */
  function ContractForRollback(s: State, rid: ActionId, cid: ConfirmationId, now: Time): Result<Contract>
    requires rid in s.actions
  {
    var a := s.actions[rid];
    if rid !in s.decisions then Err(Refused(BindingMismatch))
    else if ActiveLease(s, rid, now).None? then Err(Refused(LeaseMissing))
    else if !Usable(s, rid, cid) then Err(Refused(ConfirmationMissing))
    else if a.rollbackOf.None? then Err(Refused(SnapshotMissing)) else
    var snap := SnapshotFor(s, a.rollbackOf.value);
    if snap.None? then Err(Refused(SnapshotMissing)) else
    var c := ContractOf(s, rid, a, s.decisions[rid], RestoreFields(snap.value), snap.value.id, cid, s.leases[rid]);
    if c.WellFormed() then Ok(c) else Err(InvalidRequest)
  }

  // ----- preconditions ----------------------------------------------------

  function ValidateWorld(s: State, c: Contract, now: Time): Result<Action> {
    if c.actionId !in s.actions then Err(Refused(ActionMissing)) else
    var a := s.actions[c.actionId];
    if a.version != c.actionVersion then Err(Refused(StaleActionVersion))
    else if a.operation != UpdateProjectPlan then Err(Refused(OperationMismatch))
    else if a.target != c.target || a.environment != c.environment then Err(Refused(BindingMismatch))
    else if a.planId != c.planId || a.planRevision != c.expectedRevision then Err(Refused(BindingMismatch))
    else if c.IsExpired(now) then Err(Refused(ContractExpired))
    else if a.IsExpired(now) then Err(Refused(ActionExpired))
    else if SwitchFor(s.switches, c.environment).epoch != c.killSwitchEpoch then Err(Refused(KillSwitchEpochMismatch))
    else if !Permits(s.switches, c.environment) then Err(Refused(KillSwitchEngaged))
    else Ok(a)
  }

  function ValidateConfirmation(s: State, c: Contract, allowConsumed: bool, now: Time): Result<()> {
    if c.confirmationId !in s.bindings then Err(Refused(ConfirmationMissing)) else
    var b := s.bindings[c.confirmationId];
    if b.actionId != c.actionId then Err(Refused(ConfirmationOfOtherAction))
    else if b.IsExpired(now) then Err(Refused(ConfirmationExpired))
    else if b.state == BindingConsumed && !allowConsumed then Err(Refused(ConfirmationConsumed))
    else Ok(())
  }

  function ValidateSnapshot(s: State, c: Contract): Result<()> {
    var snap := SnapshotFor(s, c.actionId);
    if snap.None? then Err(Refused(SnapshotMissing))
    else if snap.value.actionId != c.actionId || snap.value.id != c.snapshotId then Err(Refused(SnapshotMismatch))
    else if snap.value.revision != c.expectedRevision || snap.value.target != c.target then Err(Refused(SnapshotStale))
    else if snap.value.environment != c.environment then Err(Refused(SnapshotMismatch))
    else Ok(())
  }

  function ValidateLease(s: State, c: Contract, now: Time): Result<()> {
    var lease := ActiveLease(s, c.actionId, now);
    if lease.None? then Err(Refused(LeaseMissing))
    else if lease.value.id != c.leaseId then Err(Refused(LeaseMismatch))
    else if lease.value.fencingToken != c.fencingToken then Err(Refused(StaleFencingToken))
    else if lease.value.actionVersion != c.actionVersion then Err(Refused(StaleLease))
    else Ok(())
  }

  function ValidatePlan(s: State, c: Contract): Result<()> {
    if c.target !in s.plans then Err(PlanRefused)
    else if s.plans[c.target].revision != c.expectedRevision || s.plans[c.target] != c.expectedDigest then
      Err(Refused(StalePlan))
    else Ok(())
  }

  predicate Executable(s: LifecycleState) {
    s.SnapshotCaptured? || s.Leased? || s.Running? || s.ExecutedPendingVerification?
  }

  /** Checks between the gate and the first write. */
  function Preconditions(s: State, c: Contract, seen: LifecycleState, now: Time): Result<()> {
    if !Executable(seen) then Err(Refused(InvalidLifecycleState)) else
    var confirmation := ValidateConfirmation(s, c, seen != Leased, now);
    if confirmation.Err? then confirmation else
    var snapshot := ValidateSnapshot(s, c);
    if snapshot.Err? then snapshot else
    var lease := ValidateLease(s, c, now);
    if lease.Err? then lease else ValidatePlan(s, c)
  }

  // ----- execute ----------------------------------------------------------

  /** Binding and the gate happen on the first attempt only. */
  function BindFirst(s: State, c: Contract, seen: LifecycleState): Reply<()> {
    if seen == Leased then BindEvidence(s, c.actionId, c) else Reply(s, Ok(()))
  }

  function GateFirst(s: State, c: Contract, seen: LifecycleState, now: Time): GateCode {
    if seen == Leased then Evaluate(s, c, now) else GateAllowed
  }

  function ReadBack(c: Contract, p: ProjectPlan): bool {
    Verify(Expected(c.target, c.environment, c.expectedRevision + 1, p.enabled, c.fields), p) == Passed
  }

  /** Everything up to and including the start of execution.  `None` means the
      action was already verified and there is nothing to do. */
  function Prepare(s: State, c: Contract, now: Time): Reply<Option<nat>> {
    var world := ValidateWorld(s, c, now);
    if world.Err? then Reply(s, Err(world.error)) else
    var seen := world.value.state;
    var bound := BindFirst(s, c, seen);
    if bound.result.Err? then Reply(bound.state, Err(bound.result.error)) else
    var code := GateFirst(bound.state, c, seen, now);
    if code != GateAllowed then Reply(bound.state, Err(Refused(GateDenied(code))))
    else if seen == VerifiedSuccess then Reply(bound.state, Ok(None)) else
    var checks := Preconditions(bound.state, c, seen, now);
    if checks.Err? then Reply(bound.state, Err(checks.error))
    else if seen != Leased then Reply(bound.state, Ok(Some(world.value.version))) else
    var begun := BeginExecution(bound.state, c.actionId, world.value.version, c.confirmationId, now);
    if begun.result.Err? then Reply(begun.state, Err(begun.result.error))
    else Reply(begun.state, Ok(Some(begun.result.value.version)))
  }

  /** The mutation, or the resumption when it is already durable. */
  function Mutate(s: State, c: Contract, version: nat, now: Time): Reply<nat> {
    if c.actionId !in s.actions then Reply(s, Err(Refused(ActionMissing))) else
    var a := s.actions[c.actionId];
    if a.state == Running then
      var r := MutatePlan(s, c.actionId, version, c.expectedRevision, c.fields, now);
      if r.result.Err? then Reply(r.state, Err(r.result.error)) else Reply(r.state, Ok(r.result.value.version))
    else if a.state == ExecutedPendingVerification then Reply(s, Ok(a.version))
    else Reply(s, Err(Refused(InvalidLifecycleState)))
  }

  /** Fresh read-back, its record, and the release of the lease. */
  function Conclude(s: State, c: Contract, version: nat, now: Time): Reply<Done> {
    if c.target !in s.plans then Reply(s, Err(PlanRefused)) else
    var success := ReadBack(c, s.plans[c.target]);
    var r := RecordVerification(s, c.actionId, version, success, now);
    if r.result.Err? then Reply(r.state, Err(r.result.error)) else
    Reply(ReleaseLease(r.state, c.actionId, c.leaseId, c.fencingToken).state,
          Ok(Done(if success then ReadBackSucceeded else ReadBackFailed, r.result.value.state)))
  }

  /** Everything after the start of execution. */
  function Finish(s: State, c: Contract, version: nat, now: Time): Reply<Done> {
    var mutated := Mutate(s, c, version, now);
    if mutated.result.Err? then Reply(mutated.state, Err(mutated.result.error))
    else Conclude(mutated.state, c, mutated.result.value, now)
  }

  /** `Executor.execute`, run without interference. */
  function Execute(s: State, c: Contract, now: Time): Reply<Done> {
    var ready := Prepare(s, c, now);
    if ready.result.Err? then Reply(ready.state, Err(ready.result.error))
    else if ready.result.value.None? then Reply(ready.state, Ok(Done(ReadBackSucceeded, VerifiedSuccess)))
    else Finish(ready.state, c, ready.result.value.value, now)
  }

  // ----- reconcile --------------------------------------------------------

  /** `reconcile_action`: any lease record will do, active or released. */
  function ContractForReconcile(s: State, id: ActionId, cid: ConfirmationId): Result<Contract> {
    if id !in s.actions then Err(ConfirmationMismatch)
    else if id !in s.decisions then Err(StorageCorrupt)
    else if id !in s.leases then Err(StateConflict) else
    var a := s.actions[id];
    var c := ContractOf(s, id, a, s.decisions[id], s.decisions[id].Mutation(),
                        if a.snapshotRef.Some? then a.snapshotRef.value else 0, cid, s.leases[id]);
    if c.WellFormed() then Ok(c) else Err(InvalidRequest)
  }

  /** What one observation of the plan establishes about the mutation. */
  function Classify(c: Contract, p: ProjectPlan): Outcome {
    if p.revision == c.expectedRevision + 1 && Carries(p, c.fields) then MutationSucceeded
    else if p.revision == c.expectedRevision && p == c.expectedDigest then MutationNotStarted
    else UnknownOutcome
  }

  /** Records a conclusive observation and nothing else. */
  function Settle(s: State, c: Contract, version: nat, verdict: Outcome, now: Time): (r: Reply<Outcome>)
    ensures r.state.switches == s.switches
  {
    match verdict
    case MutationSucceeded =>
      var r := MarkReconciled(s, c.actionId, version, ExecutedPendingVerification, MutationSucceeded, now);
      if r.result.Err? then Reply(r.state, Err(r.result.error)) else Reply(r.state, Ok(MutationSucceeded))
    case MutationNotStarted =>
      var r := MarkReconciled(s, c.actionId, version, ReconciliationRequired, MutationNotStarted, now);
      if r.result.Err? then Reply(r.state, Err(r.result.error)) else Reply(r.state, Ok(MutationNotStarted))
    case _ => Reply(s, Ok(UnknownOutcome))
  }

  /** What the executor's receipt store answers, if it answers; `status` is the
      code of a known status. */
  datatype ReceiptReply = ReceiptReply(status: Option<nat>, actionId: ActionId, token: nat, digest: Contract)

  /** A status counts only if it is about this attempt: same action, same token,
      and the contract that was bound when it was executed. */
  function ReceiptStatus(s: State, c: Contract, reply: Option<ReceiptReply>): Option<nat> {
    if reply.Some? && c.actionId in s.evidence && reply.value.actionId == c.actionId
       && reply.value.token == c.fencingToken && reply.value.digest == s.evidence[c.actionId]
    then reply.value.status else None
  }

  datatype Reconciled = Reconciled(outcome: Outcome, receipt: Option<nat>)

  /** `Executor.reconcile`, run without interference. */
  function Reconcile(s: State, c: Contract, now: Time, reply: Option<ReceiptReply>): Reply<Reconciled> {
    if c.actionId !in s.actions then Reply(s, Err(Refused(ActionMissing)))
    else if c.actionId !in s.outcomes then Reply(s, Err(InvalidRequest))
    else if s.outcomes[c.actionId] != UnknownOutcome then Reply(s, Ok(Reconciled(s.outcomes[c.actionId], None)))
    else if c.target !in s.plans then Reply(s, Err(PlanRefused)) else
    var verdict := Classify(c, s.plans[c.target]);
    var r := Settle(s, c, s.actions[c.actionId].version, verdict, now);
    Reply(r.state, if r.result.Err? then Err(r.result.error)
                   else Ok(Reconciled(r.result.value,
                                      if verdict == UnknownOutcome then ReceiptStatus(s, c, reply) else None)))
  }

  // ----- rollback ---------------------------------------------------------

  predicate RollbackEligible(s: LifecycleState) {
    s.VerificationFailed? || s.ExecutionFailed? || s.RollbackRequested?
  }

  function RollbackChecks(s: State, rid: ActionId, oid: ActionId, now: Time): Result<()> {
    if rid !in s.actions || oid !in s.actions then Err(Refused(ActionMissing)) else
    var a, original := s.actions[rid], s.actions[oid];
    if a.rollbackOf != Some(oid) then Err(Refused(BindingMismatch))
    else if !RollbackEligible(original.state) then Err(Refused(InvalidOriginalState))
    else if a.operation != RollbackProjectPlan then Err(Refused(OperationMismatch))
    else if a.IsExpired(now) || original.IsExpired(now) then Err(Refused(ActionExpired))
    else if !Permits(s.switches, a.environment) then Err(Refused(KillSwitchEngaged))
    else Ok(())
  }

  function LeaseRollback(s: State, rid: ActionId, leaseId: LeaseId, now: Time): (r: Reply<()>)
    requires rid in s.actions
    ensures r.state.actions.Keys == s.actions.Keys && r.state.switches == s.switches
    ensures r.state.plans == s.plans && r.state.log == s.log
  {
    if s.actions[rid].state != SnapshotCaptured then Reply(s, Ok(())) else
    var r := AcquireLease(s, rid, s.actions[rid].version, leaseId, now);
    Reply(r.state, if r.result.Err? then Err(r.result.error) else Ok(()))
  }

  /** Contract, lease check and gate, all on the current state. */
  function AdmitRollback(s: State, rid: ActionId, cid: ConfirmationId, now: Time): (r: Result<Contract>)
    requires rid in s.actions
    ensures r.Ok? ==> r.value.actionId == rid
  {
    var built := ContractForRollback(s, rid, cid, now);
    if built.Err? then built else
    var lease := ValidateLease(s, built.value, now);
    if lease.Err? then Err(lease.error) else
    var code := Evaluate(s, built.value, now);
    if code != GateAllowed then Err(Refused(GateDenied(code))) else built
  }

  function BeginRollback(s: State, c: Contract, now: Time): (r: Reply<()>)
    requires c.actionId in s.actions
    ensures r.state.actions.Keys == s.actions.Keys && r.state.switches == s.switches
    ensures r.state.plans == s.plans && r.state.log == s.log
  {
    if s.actions[c.actionId].state != Leased then Reply(s, Ok(())) else
    var r := BeginExecution(s, c.actionId, c.actionVersion, c.confirmationId, now);
    Reply(r.state, if r.result.Err? then Err(r.result.error) else Ok(()))
  }

  /** The restore: only when the plan is exactly one revision past the
      original action's, and only from RUNNING. */
  function Restore(s: State, rid: ActionId, original: Action, fields: Fields, now: Time): (r: Reply<nat>)
    requires rid in s.actions
    ensures r.state.actions.Keys == s.actions.Keys && r.state.switches == s.switches
  {
    var a := s.actions[rid];
    if a.target !in s.plans then Reply(s, Err(PlanRefused))
    else if s.plans[a.target].revision != original.planRevision + 1 then Reply(s, Err(Refused(StalePlan)))
    else if a.state != Running then Reply(s, Ok(a.version)) else
    var r := MutatePlan(s, rid, a.version, s.plans[a.target].revision, fields, now);
    if r.result.Err? then Reply(r.state, Err(r.result.error)) else Reply(r.state, Ok(r.result.value.version))
  }

  function RestoredOk(a: Action, snap: Snapshot, p: ProjectPlan): bool {
    Verify(Expected(a.target, a.environment, p.revision, p.enabled, RestoreFields(snap)), p) == Passed
  }

  /** Read-back, its record, and the verdict on the original action. */
  function ConcludeRollback(s: State, c: Contract, oid: ActionId, originalVersion: nat, snap: Snapshot, version: nat,
                            now: Time)
    : Reply<Done>
    requires c.actionId in s.actions
  {
    var a := s.actions[c.actionId];
    if a.target !in s.plans then Reply(s, Err(PlanRefused)) else
    var success := RestoredOk(a, snap, s.plans[a.target]);
    var recorded := RecordVerification(s, c.actionId, version, success, now);
    if recorded.result.Err? then Reply(recorded.state, Err(recorded.result.error)) else
    var finished := AdvanceRollback(recorded.state, oid, originalVersion, {RollbackRequested},
                                    if success then RolledBack else RollbackFailed, now);
    if finished.result.Err? then Reply(finished.state, Err(finished.result.error)) else
    Reply(ReleaseLease(finished.state, c.actionId, c.leaseId, c.fencingToken).state,
          Ok(if success then Done(RollbackSucceeded, RolledBack)
             else Done(RollbackDidFail, recorded.result.value.state)))
  }

  /** Lease, contract, gate, evidence and the start of execution. */
  function OpenRollback(s: State, rid: ActionId, cid: ConfirmationId, leaseId: LeaseId, now: Time): (r: Reply<Contract>)
    requires rid in s.actions
    ensures r.state.actions.Keys == s.actions.Keys && (r.result.Ok? ==> r.result.value.actionId == rid)
    ensures r.state.plans == s.plans && r.state.log == s.log
  {
    var leased := LeaseRollback(s, rid, leaseId, now);
    if leased.result.Err? then Reply(leased.state, Err(leased.result.error)) else
    var admitted := AdmitRollback(leased.state, rid, cid, now);
    if admitted.Err? then Reply(leased.state, Err(admitted.error)) else
    var bound := BindEvidence(leased.state, rid, admitted.value);
    if bound.result.Err? then Reply(bound.state, Err(bound.result.error)) else
    var begun := BeginRollback(bound.state, admitted.value, now);
    Reply(begun.state, if begun.result.Err? then Err(begun.result.error) else admitted)
  }

  /** Everything after the start of a rollback's execution. */
  function FinishRollback(s: State, c: Contract, oid: ActionId, original: Action, now: Time): Reply<Done>
    requires c.actionId in s.actions
  {
    var snap := SnapshotFor(s, oid);
    if snap.None? then Reply(s, Err(Refused(SnapshotMissing))) else
    var restored := Restore(s, c.actionId, original, RestoreFields(snap.value), now);
    if restored.result.Err? then Reply(restored.state, Err(restored.result.error))
    else ConcludeRollback(restored.state, c, oid, original.version, snap.value, restored.result.value, now)
  }

  /** `Executor.execute_rollback`, run without interference. */
  function ExecuteRollback(s: State, rid: ActionId, oid: ActionId, cid: ConfirmationId, leaseId: LeaseId, now: Time)
    : Reply<Done>
  {
    var checks := RollbackChecks(s, rid, oid, now);
    if checks.Err? then Reply(s, Err(checks.error)) else
    var started := OpenRollback(s, rid, cid, leaseId, now);
    if started.result.Err? then Reply(started.state, Err(started.result.error))
    else FinishRollback(started.state, started.result.value, oid, s.actions[oid], now)
  }
}
