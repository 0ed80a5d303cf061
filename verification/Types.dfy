/** Values shared by every component of the control plane.

    Identifiers are opaque and only ever compared for equality, so they are
    drawn from `nat`; instants are integers in seconds.  A digest is represented
    by the canonical payload it is computed from, which makes it injective. */
module Types {

  datatype Option<+T> = None | Some(value: T)

  datatype Result<+T> = Ok(value: T) | Err(error: Error)

  type Time = int
  type ActionId = nat
  type Target = nat
  type Subject = nat
  type SnapshotId = nat
  type LeaseId = nat

  const DECISION_TTL: Time := 300
  const CONFIRMATION_TTL: Time := 600
  const PLAN_TTL: Time := 900
  const LEASE_TTL: Time := 300

  datatype Environment = Staging | Production

  datatype Operation = UpdateProjectPlan | RollbackProjectPlan

  datatype ActionProtocol = LegacyV1 | Mc616d2V1

  datatype ConfirmationKind = OwnerConfirmation | DistinctApproval

  /** Every way an operation of the control plane can be turned down. */
  datatype Error =
    | StorageCorrupt
    | IdempotencyConflict
    | InvalidRequest
    | StateConflict
    | StaleEvidence
    | ExpiredPlan
    | ConfirmationMismatch
    | UnavailableTarget
    | LifecycleRefused
    | PlanRefused
    | Refused(reason: Refusal)

  /** Reason codes the executor attaches to a refusal. */
  datatype Refusal =
    | ActionMissing
    | StaleActionVersion
    | OperationMismatch
    | BindingMismatch
    | ContractExpired
    | ActionExpired
    | KillSwitchEpochMismatch
    | KillSwitchEngaged
    | GateDenied(code: GateCode)
    | InvalidLifecycleState
    | ConfirmationMissing
    | ConfirmationOfOtherAction
    | ConfirmationExpired
    | ConfirmationConsumed
    | SnapshotMissing
    | SnapshotMismatch
    | SnapshotStale
    | LeaseMissing
    | LeaseMismatch
    | StaleFencingToken
    | StaleLease
    | StalePlan
    | InvalidOriginalState

  /** Outcome of the final execution gate, for the calls the executor makes. */
  datatype GateCode =
    | GateAllowed
    | GateActionMissing
    | GateActionTerminal
    | GateStaleActionVersion
    | GateActionExpired
    | GateLegacyMutationBlocked
    | GateContractDigestMismatch
    | GateCapabilityVersionMismatch
    | GateEnvironmentDenied
    | GatePolicyMismatch
    | GateConfirmationMissing
    | GateConfirmationExpired
    | GateConfirmationConsumed
    | GateSnapshotMissing
    | GateSnapshotMismatch
    | GateStalePlan
    | GateLeaseMissing
    | GateLeaseFenceMismatch
    | GateKillSwitchEpochMismatch
    | GateKillSwitchEngaged
    | GateContractExpired

  /** Typed classification of where an execution reached. */
  datatype Outcome =
    | MutationNotStarted
    | MutationStarted
    | MutationSucceeded
    | MutationFailed
    | ReadBackSucceeded
    | ReadBackFailed
    | RollbackNotRequired
    | RollbackAsked
    | RollbackSucceeded
    | RollbackDidFail
    | UnknownOutcome
}
