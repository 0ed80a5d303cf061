# Verified model of the AIPM control plane

AIPM's control plane executes an operator's change to a project plan under guard: a request is
authorized, confirmed, snapshotted, leased with a fencing token, checked by a final gate, applied to a
revisioned plan by compare-and-set and verified by reading it back. The outcome may later be reconciled
or rolled back, and an approved update may be handed to an executor process over a framed IPC channel,
guarded by a durable receipt. This project models that protocol in Dafny and proves what it guarantees
over whole runs, with any number of callers interleaving, crashing and retrying.

Check everything with `dafny verify dfyconfig.toml`.

## How the model is built

* **Values and composites.** `Types`, `Lifecycle`, `Plans`, `KillSwitch` and `Store` define the durable
  state and, for each composite of the in-memory repository, a function from a state to a state and a
  result. Composites that write before they can fail do so here too. `Gate`, `Executor` and `Service`
  define the pure checks and the verbs built from composites. A digest is represented by the value it is
  computed from, an identifier by an opaque number, an instant by an integer.
* **Objects.** Code that updates fields in place is a class: `Repository.ActionRepository`,
  `PlanExecutor.BoundedExecutor`, `ControlPlane.Service`, `KillSwitch.KillSwitchRegistry`,
  `Fence.ReceiptStore`, `Fence.UpdateHandler`, `Fence.RestartExecutor`, `OwnerAuth.OwnerAuthenticator`,
  `Session.OwnerSessionStore`, `RateLimiter.SlidingWindow` and `Frames.Socket`. Every method is tied to
  the function that specifies it, and the theorems are about those functions. Every method that writes the
  repository, directly or through the executor, the service or the sweep, keeps its `Valid()`.
* **Runs.** `Protocol` is a step function over events of any number of callers; each step is one composite
  or one group of reads, and what a caller has read stays in its program counter, however stale. Clocks are
  not assumed to agree or to advance. `Invariant`, `Preservation` and `Reachable` prove that every event
  keeps one invariant and only moves the state forward; `Theorems` draws the consequences for all runs.
  `Stepwise` proves that a caller nobody interrupts does exactly what the one-call functions say, and
  `Progress` that the runs the theorems speak of exist: any fresh request can succeed, and verification can
  fail.
* **Conditions.** `Conditions` says when each decision and each composite comes out as it does, from the stored
  values alone; `Footprint` what each step can touch; `Provenance`, `Earned`, `Verdicts`, `Reversal` and
  `EmergencyStop` carry that over to whole runs, where an event of the run stands for each thing on record.
* **A ghost log** of plan writes, with their authors and the plans they replaced, is carried along; no code
  reads it.

## What turned out

* In no run does a rollback restore anything. Once the requested content is durable, a read-back can only
  fail because the target has moved past it, and then the rollback's own compare-and-set rule refuses it for
  good (`Theorems.FailedVerificationIsFinal`, `Theorems.RollbackNeverWrites`,
  `ControlPlane.FailedActionCannotBeRolledBack`). Repository calls in another order than these callers make
  them, recording a failed verification at the revision just written, do lead to states in which a rollback
  succeeds and then undoes the mutation exactly (`RollbackExample.RollbackCanSucceed`, `Alone.RollbackUndoes`).
* `execute` never resumes: its entries in SNAPSHOT_CAPTURED, RUNNING and EXECUTED_PENDING_VERIFICATION are
  refused, because the lease is missing or was granted for an older version (`Alone.OnlyLeasedExecutes`).
  The documentation in the code speaks of resuming; the model follows the code.
* Every caller of `run_approved_update` that entered before the action was verified reaches the runtime call
  afterwards, however many there are, if the digest, a confirmation and the evidence are on record
  (`UpdateRun.CallerSendsExactly`,
  `UpdateWitness.OverlappingCallersBothSend`); only the receipt fence and the single lease token keep the
  engine to one run (`UpdateRun.EngineRunsAtMostOnce`).
* The sliding-window limiter, with a positive limit and a window that is not negative, holds its limit for all
  histories of a set of callers if and only if it has room for all of them (`RateLimiter.LimitHoldsExactly`):
  a key that was dropped to bound the memory can get twice the limit through in one window, whatever the
  configuration (`RateLimiter.DroppedKeyOverflows`). How far the limit can be exceeded is bounded, and that
  history reaches the bound (`RateLimiter.WindowBound`).
* A policy that asks for distinct approval stops everything: the confirmation then wants somebody else than the
  requester, but actions are registered for owner confirmation (`Provenance.DistinctApprovalIsStuck`).
* An emergency stop does not reach callers that have passed the executor's first check; they, and nobody else,
  may still write (`EmergencyStop.StopLetsOnlyFinish`).
* Whether a rollback is planned as safe depends on the target's revision alone, not on who wrote it: an action
  that was captured and never executed can be rolled back once another one has written
  (`Reversal.SafeExactlyOnePast`, `Reversal.SafeCanBeAskedBack`).
* A frame cut off inside its payload is accepted with the part that arrived; decoding is exact if and only
  if all announced bytes arrived (`Frames.DecodeAccepts`, `Frames.TruncatedFrameIsAccepted`).
* An object that parses as an execution request but also carries the query marker is refused
  (`Messages.KindsAreDisjoint`).
* SUCCEEDED, as reconciliation concludes it, means that the requested content is durable as the next revision.
  It can be recorded only for an action that is still RUNNING, and the write and the move out of RUNNING are
  one composite (src/aipm/control_plane/storage/sqlite_store.py:1321-1328). So in no run is it recorded for
  the action that wrote: the content is always the one write of another action authorized for the same
  revision, and the credited action never writes (`Theorems.SuccessIsAnothers`,
  `Theorems.WriterIsNeverCredited`); such runs exist (`Credit.MiscreditIsReachable`). The repository's own
  example of the opposite (tests/test_mc612_stage8_executor.py:504-531) writes the plan past the action
  repository, which none of the modelled callers does.
* The dry run of an update intent is documented to consume the confirmation; the code does not. It is a
  sequence of the protocol's own events (authorize, confirm, capture, lease), so every theorem covers it.

## Model

| member | source | states |
|---|---|---|
| Lifecycle.Advance | src/aipm/control_plane/lifecycle.py:98-149 | a successful advance changes nothing an action is bound to, adds one to its version, keeps a recorded confirmer and strictly lowers the rank of its state |
| Lifecycle.AdvancesExactly | src/aipm/control_plane/lifecycle.py:98-149 | an advance succeeds exactly where the next state can be entered from the present one, in time unless it expires the action, and with a confirmer who may confirm or one on record where the next state wants one |
| Lifecycle.OneWayToExecution | src/aipm/control_plane/lifecycle.py:32-48 | an action that is confirmed, captured, leased, running or executed has been through every state before that one, each once and in order |
| Lifecycle.LifecycleIsBounded | src/aipm/control_plane/lifecycle.py:32-48 | from REQUESTED at version 0 every history has at most eleven transitions, the version counts them, and no state is entered twice |
| Lifecycle.BoundIsTight | src/aipm/control_plane/lifecycle.py:32-48 | a history of eleven transitions exists, so the bound cannot be lowered |
| Plans.Update | src/aipm/control_plane/project_plan.py:81-97 | accepts exactly the current revision with acceptable fields; the result is one revision on, carries the fields and keeps the rest |
| Plans.UpdatedTextIsClean | src/aipm/control_plane/project_plan.py:81-97 | whatever is asked, an updated plan has a title of 1 to 200 and an objective of 1 to 2000 characters without control characters or padding |
| Plans.MutationFields | src/aipm/control_plane/models.py:163-172 | the metadata without its binding fields, values unchanged |
| KillSwitch.EpochCountsChanges | src/aipm/control_plane/kill_switch.py:164-202 | the staging epoch grows by exactly the number of changes carried out |
| KillSwitch.SameEpochSameSwitch | src/aipm/control_plane/kill_switch.py:154-202 | the same epoch is seen again if and only if no change was carried out, and then the record is the same |
| KillSwitch.LastChangeDecides | src/aipm/control_plane/kill_switch.py:164-202 | after any list of operator verbs the staging record is as the last one carried out left it, and as before if none was |
| KillSwitch.StagingPermitsExactly | src/aipm/control_plane/kill_switch.py:154-202 | staging permits operations if and only if the last change carried out was a disengage |
| EmergencyStop.StagingOpenExactly | src/aipm/control_plane/kill_switch.py:154-202 | the same in every run of the whole control plane, where only the operator verbs touch the switches |
| EmergencyStop.StopHolds | src/aipm/control_plane/service.py:434-447 | from a stop until a later disengage, at every point of every run: nothing is authorized, no rollback asked for or started, no snapshot taken, and neither the gate nor the executor's first check lets anything through |
| EmergencyStop.StopLetsOnlyFinish | src/aipm/control_plane/executor.py:250-343 | and every plan write by an action is by one some caller was already executing when the stop took effect |
| KillSwitch.ProductionNeverPermits | src/aipm/control_plane/kill_switch.py:161-202 | no sequence of operator verbs makes production permit anything |
| KillSwitch.KillSwitchRegistry.Current | src/aipm/control_plane/kill_switch.py:154-160 | the stored record, or a default that never permits |
| KillSwitch.KillSwitchRegistry.Engage | src/aipm/control_plane/kill_switch.py:164-181 | exactly when acceptable, leaves the record engaged, as old as before, updated now and one epoch on, permitting nothing; the other environment is untouched |
| KillSwitch.KillSwitchRegistry.Disengage | src/aipm/control_plane/kill_switch.py:183-202 | the same for disengaging: staging is left disengaged and permitting; production is refused |
| Repository.ActionRepository.RegisterAction | src/aipm/control_plane/action_state.py:101-116 | registers once per key and id, replays an equal registration, conflicts otherwise, and fails without effect |
| Repository.ActionRepository.FindByKey | src/aipm/control_plane/action_state.py:124-128 | finds an action exactly when a scan of all stored actions would, and it is that action |
| Repository.ActionRepository.AdvanceAction | src/aipm/control_plane/action_state.py:157-166 | compare-and-set on the version around one lifecycle advance |
| Repository.ActionRepository.CaptureSnapshot | src/aipm/control_plane/action_state.py:168-193 | stores the snapshot exactly when the confirmed action advances |
| Repository.ActionRepository.SnapshotFor | src/aipm/control_plane/action_state.py:195-199 | the loop returns the first snapshot taken for the action |
| Repository.ActionRepository.MarkOutcome | src/aipm/control_plane/action_state.py:201-219 | notes an outcome, except directly from unknown to not started |
| Repository.ActionRepository.BindEvidence | src/aipm/control_plane/action_state.py:224-235 | write-once: the same contract again is a replay, another one an error |
| Repository.ActionRepository.AcquireLease | src/aipm/control_plane/action_state.py:261-313 | grants the next fencing token exactly when the captured, unexpired action advances and no lease is live |
| Repository.ActionRepository.ReleaseLease | src/aipm/control_plane/action_state.py:240-248 | releases only the lease with that id and token |
| Repository.ActionRepository.BeginExecution | src/aipm/control_plane/action_state.py:315-339 | consumes the named confirmation, whichever action it belongs to, exactly when the leased action advances |
| Repository.ActionRepository.MutatePlan | src/aipm/control_plane/action_state.py:341-365 | writes the plan first and advances second, so a failing advance leaves the plan written |
| Repository.ActionRepository.RecordVerification | src/aipm/control_plane/action_state.py:367-389 | advances to verified or failed with the matching outcome |
| Repository.ActionRepository.MarkReconciled | src/aipm/control_plane/action_state.py:391-407 | advances to the given state with the given outcome, by compare-and-set |
| Repository.ActionRepository.AdvanceRollback | src/aipm/control_plane/action_state.py:409-423 | advances only from the listed states |
| Repository.ActionRepository.ConfirmAndAdvance | src/aipm/control_plane/action_state.py:475-494 | stores the confirmed binding first, so a failing advance leaves it behind |
| Repository.ActionRepository.CreatePlan | src/aipm/control_plane/project_plan.py:118-124 | creates a staging plan at revision 1, once per target |
| Repository.ActionRepository.UpdatePlan | src/aipm/control_plane/project_plan.py:132-136 | replaces the stored plan by its update and logs the write |
| Conditions.RegistersExactly | src/aipm/control_plane/action_state.py:101-116 | when an action is stored, replayed or refused |
| Conditions.LeasesExactly | src/aipm/control_plane/action_state.py:261-313 | a lease is granted if and only if the action is captured, confirmed, in time and not leased; for five minutes, for the new version and with a token above every earlier one |
| Conditions.BeginsExactly | src/aipm/control_plane/action_state.py:315-339 | execution begins if and only if the action is leased, confirmed and in time and the named confirmation given and unused |
| Conditions.MutatesExactly | src/aipm/control_plane/action_state.py:341-365 | a mutation goes through if and only if the action is RUNNING, confirmed and in time, the plan at the given revision and the text acceptable |
| Conditions.RecordsExactly | src/aipm/control_plane/action_state.py:367-389 | when a verification is recorded, and what then |
| Conditions.NotesExactly | src/aipm/control_plane/action_state.py:201-219 | when an outcome is noted |
| Commands.RepositoryStaysConsistent | src/aipm/control_plane/action_state.py:101-128 | after any sequence of repository calls with any arguments the index agrees with a scan, revisions are one plus the mutations applied, and no revision was written twice |
| Gate.Verify | src/aipm/control_plane/verification.py:232-268 | passes exactly when target, environment, revision, enablement and every expected field agree |
| Gate.AllowedMeans | src/aipm/control_plane/gate.py:293-602 | everything an allowed decision certifies: current version, live authority, unconsumed confirmation of this action, the authorized plan, the matching live lease, the switch at the contract's epoch and disengaged |
| Conditions.GateAllowsExactly | src/aipm/control_plane/gate.py:293-602 | the gate allows an attempt if and only if one flat condition on action, evidence, confirmation, snapshot, plan, lease and switch holds |
| Conditions.PreconditionsExactly | src/aipm/control_plane/executor.py:296-343 | the checks between the gate and the first write pass if and only if confirmation, snapshot, lease and plan are those of the contract |
| Service.EvaluatePolicy | src/aipm/control_plane/policy.py:218-295 | an allowed decision is for the plan, request and principal presented and its window is non-empty, at most five minutes and within the plan's; who is allowed is stated by Conditions.PolicyAllowsExactly |
| Conditions.PolicyAllowsExactly | src/aipm/control_plane/policy.py:218-295 | a request is allowed if and only if a verified, unexpired owner brings it, it is within the scopes, asks for a title or objective and nothing but bindings besides (a rollback for nothing), and concerns an enabled plan of that target and environment, while the planner's plan is live; the decision is made at the instant of the call |
| Conditions.DenialNamesFault | src/aipm/control_plane/policy.py:218-272 | the code of a denial names the first thing that is wrong |
| Provenance.EveryDecisionWasGranted | src/aipm/control_plane/policy.py:218-295 | in every run each stored decision was granted, by an authorizing event of the run, to a verified, unexpired owner within the policy's scopes and with the environment open |
| Service.RegisteredWindow | src/aipm/control_plane/service.py:1444-1491 | registration stores one new action carrying exactly the decision's window and identity, two transitions on, and nothing else |
| Service.ConfirmationWindow | src/aipm/control_plane/approval.py:100-165 | a confirmation asked of a live decision gets a non-empty window of at most ten minutes inside the decision's |
| Conditions.AskingExactly | src/aipm/control_plane/approval.py:100-165 | a confirmation is made if and only if the decision stands, none is pending or given for the action, and there is room; for the decision's principal, by its rule, for at most ten minutes |
| Conditions.ConfirmsExactly | src/aipm/control_plane/approval.py:167-203 | a confirming act succeeds if and only if the pending confirmation is in time, the actor may confirm both it and the action, and the action waits for it; it is then on record |
| Provenance.OneActiveConfirmation | src/aipm/control_plane/approval.py:130-138 | in every run at most one confirmation of an action is pending or given, and each given one was given by somebody its rule allows |
| Provenance.EveryActionWasConfirmed | src/aipm/control_plane/service.py:363-427 | in every run each confirmed action was confirmed by an event of the run, in time, by somebody who may |
| Provenance.DistinctApprovalIsStuck | src/aipm/control_plane/approval.py:193-198 | under a policy of distinct approval no action is ever confirmed in any run: the confirmation wants somebody else than the requester, the action the requester |
| Conditions.CapturesExactly | src/aipm/control_plane/service.py:449-507 | a snapshot is taken if and only if the action is confirmed and in time, staging is open and the plan read is at the authorized revision; it holds that plan |
| Earned.EverySnapshotWasTaken | src/aipm/control_plane/service.py:449-507 | in every run each snapshot was taken so by an event of the run |
| Earned.EveryExecutionIsEarned | src/aipm/control_plane/service.py:257-507 | in every run an action that was captured, and so every one leased or executed, was first granted to an owner, later confirmed, and later still captured |
| Earned.EveryWritePassedTheGate | src/aipm/control_plane/executor.py:349-374 | in every run each plan written for an action was let through the gate before, on its first attempt, and the gate saw staging open, the confirmation unused, the lease held and the very plan that was then replaced |
| ControlPlane.Service.Authorize | src/aipm/control_plane/service.py:257-308 | replays the stored decision for an equal request, conflicts for another one, else decides and registers; an allowed request is bound under its key, any other answer leaves the store as it was; under a new key it is allowed if and only if the policy's condition holds |
| ControlPlane.Service.RequestConfirmation | src/aipm/control_plane/approval.py:100-165 | finds the pending confirmation or makes one; exactly when is Conditions.AskingExactly, at most one at a time Provenance.OneActiveConfirmation |
| ControlPlane.Service.Confirm | src/aipm/control_plane/service.py:363-427 | asks, validates the confirming act and advances the action; succeeds if and only if the decision stands, the action waits for this actor and a confirmation is pending or can be made |
| ControlPlane.Service.CaptureSnapshot | src/aipm/control_plane/service.py:449-507 | captures the target's current plan if and only if the action is confirmed and in time, staging open and the plan at the authorized revision |
| ControlPlane.Service.RequestRollback | src/aipm/control_plane/service.py:597-654 | registers a rollback only for an update whose snapshot holds the authorized plan and whose target stands one revision past it, then flags the original; when allowed, the rollback's key is bound to the answered decision, and no plan is touched |
| ControlPlane.Service.ExecuteAction | src/aipm/control_plane/service.py:701-810 | terminal replay, rollback routing, lease, contract and execution in the order of the code; an action that is over is answered with the recorded outcome; a success on a captured action is the completed execution |
| ControlPlane.Service.ReconcileAction | src/aipm/control_plane/service.py:824-861 | reconciles against the retained lease, active or released, answers a recorded outcome as it is, and never touches a plan |
| ControlPlane.ExecuteActionCompletes | src/aipm/control_plane/service.py:701-810 | a successful call on a captured action takes it four versions on, replaces exactly the authorized plan by its next revision, releases lease token 1 and touches no other action or plan |
| ControlPlane.ExecutesExactly | src/aipm/control_plane/service.py:701-810 | executing a captured action succeeds if and only if it is in time, the confirmation its own, given, unused and in time, staging open, the authorized plan still there, no other contract bound and the text acceptable |
| ControlPlane.RollsBackExactly | src/aipm/control_plane/service.py:701-760 | executing a captured rollback undoes its original if and only if it can be undone |
| ControlPlane.RequestRollbackRegisters | src/aipm/control_plane/service.py:597-654 | an owner's first request, in time, to roll back an update whose target stands one revision on registers a rollback action that waits for confirmation |
| ControlPlane.FlagsExactly | src/aipm/control_plane/service.py:640-654 | a failed original is flagged exactly when its rollback was allowed and it can still advance |
| ControlPlane.ReconcileContractExactly | src/aipm/control_plane/service.py:824-861 | in every reachable state the contract of a reconciliation is built exactly for actions that have had a lease, with the decision's fields, revision and plan |
| Conditions.SafeExactly | src/aipm/control_plane/rollback.py:160-239 | a rollback is planned as safe if and only if the action is an update not rolled back, its snapshot holds the authorized plan, and the target stands exactly one revision past it |
| Reversal.SafeExactlyOnePast | src/aipm/control_plane/rollback.py:214-223 | in every run: if and only if it is an update that got as far as its snapshot and its target stands one revision past the authorized one |
| Reversal.SafeCanBeAskedBack | src/aipm/control_plane/service.py:597-654 | in every run such an action can be asked back: the event registers a rollback that waits for confirmation, whoever wrote that revision |
| ControlPlane.FailedActionCannotBeRolledBack | src/aipm/control_plane/service.py:572-654 | after a failed verification, asking for a rollback is refused at every later point of every run |
| PlanExecutor.BoundedExecutor.Prepare | src/aipm/control_plane/executor.py:250-343 | checks, evidence, gate and start of execution, in that order; a refusal names something that is wrong |
| PlanExecutor.BoundedExecutor.Execute | src/aipm/control_plane/executor.py:349-425 | the object's call equals the specifying function on the whole state; an error leaves every plan alone, a success from LEASED is the finished execution |
| PlanExecutor.BoundedExecutor.Reconcile | src/aipm/control_plane/executor.py:431-481 | a recorded outcome is returned as it is; with unknown on record, SUCCEEDED is answered exactly if the plan carries the fields one revision on and the action can take it, NOT STARTED exactly if the authorized plan stands, and unknown exactly if neither |
| PlanExecutor.BoundedExecutor.ExecuteRollback | src/aipm/control_plane/executor.py:536-670 | the same for rollback; a reported success has undone the mutation |
| Alone.PrepareBegins | src/aipm/control_plane/executor.py:349-374 | a leased action is started if and only if one flat admissibility condition holds; otherwise at most the write-once evidence is noted |
| Alone.OnlyLeasedExecutes | src/aipm/control_plane/executor.py:326-337 | an action in any state but LEASED is left exactly as it is |
| Conditions.RefusalNamesFault | src/aipm/control_plane/executor.py:250-343 | every refusal of an execution, the gate's codes included, names something that is wrong |
| Alone.ExecuteAlone | src/aipm/control_plane/executor.py:349-425 | with any contract, from any state within the invariant: refused with at most evidence noted, or the full final state (version +3, revision +1, requested fields, confirmation consumed, lease released), or stopped in RUNNING exactly when the plan store rejects the text |
| Alone.RollbackUndoes | src/aipm/control_plane/executor.py:536-670 | a successful rollback leaves the snapshot's title and objective two revisions past it, the original rolled back and every other plan and action untouched |
| Alone.MutationThenRollback | src/aipm/control_plane/executor.py:723-741 | a mutation followed by its rollback is the identity but for revision and time of change |
| Alone.ReachableIsOrderly | src/aipm/control_plane/action_state.py:168-193 | every state of every run satisfies what the undo theorem assumes |
| RollbackExample.UndoableSucceeds | src/aipm/control_plane/executor.py:536-670 | a confirmed, captured rollback of a flagged action whose target nothing else happened to succeeds |
| RollbackExample.UndoableExactly | src/aipm/control_plane/executor.py:536-670 | from an orderly state a captured rollback with no contract bound succeeds if and only if it is confirmed, in time and for the plan as it stands, staging is open, and its original waits for it one revision behind |
| Conditions.ChecksExactly | src/aipm/control_plane/executor.py:536-575 | when a rollback passes the first checks |
| Conditions.ConcludesRollback | src/aipm/control_plane/executor.py:626-670 | the text that stands in the plan decides the answer and the state of both actions |
| RollbackExample.RollbackCanSucceed | src/aipm/control_plane/executor.py:536-670 | some sequence of repository calls on an empty store leads to a valid, orderly state in which a rollback succeeds |
| Stepwise.ExecuteIsItsSteps | src/aipm/control_plane/executor.py:349-425 | an uninterrupted caller's steps leave exactly the state of the whole call |
| Stepwise.ReconcileIsItsSteps | src/aipm/control_plane/executor.py:431-481 | the same for reconciliation |
| Stepwise.RollbackIsItsSteps | src/aipm/control_plane/executor.py:536-670 | the same for rollback |
| Reachable.FailedReadBackMeansOvertaken | src/aipm/control_plane/executor.py:395-415 | once the requested content is durable a read-back can fail only because the target has moved on |
| Reachable.PreStateMeansUnwritten | src/aipm/control_plane/executor.py:446-463 | observing the authorized plan excludes that the action ever wrote |
| Reachable.StepKeeps | src/aipm/control_plane/executor.py:349-670 | one event of any caller, however stale its reads, keeps the invariant of the store and of every other caller |
| Reachable.RunKeeps | src/aipm/control_plane/action_state.py:73-494 | every run keeps the invariant and every state evolves from every earlier one |
| Theorems.NoLostUpdates | src/aipm/control_plane/action_state.py:341-365 | in every run each mutation replaces exactly the authorized plan with nothing written in between, adds one revision with the requested content within five minutes of the decision; every revision is written once, no action writes twice |
| Theorems.FailedVerificationIsFinal | src/aipm/control_plane/rollback.py:160-239 | after a failed verification, at every later point of the run the target has moved on, the rollback is unsafe and no caller is in or past the restoring step |
| Theorems.RollbackNeverWrites | src/aipm/control_plane/executor.py:607-625 | in no run does a rollback action write, a caller reach the restoring step, or an action become rolled back, rollback-failed or execution-failed |
| Theorems.RollbackIsRefused | src/aipm/control_plane/executor.py:612-614 | run alone in any reachable state, a rollback fails and leaves all plans alone |
| Theorems.NotStartedMeansNever | src/aipm/control_plane/executor.py:462-470 | NOT STARTED is concluded only for a mutation applied nowhere in the run, before or after |
| Theorems.SucceededMeansLanded | src/aipm/control_plane/executor.py:453-461 | SUCCEEDED is concluded only when the requested fields are durable one revision on |
| Theorems.SuccessIsAttributed | src/aipm/control_plane/executor.py:446-461 | whenever a caller is about to conclude SUCCEEDED, whether it will then be recorded or refused, exactly one write put the content there, by an update action authorized for the very same plan; it is the concluded action's own if and only if no other action authorized for that revision wrote |
| Theorems.SuccessIsRecordedWhen | src/aipm/control_plane/executor.py:453-461 | the conclusion is recorded if and only if the action is RUNNING, at the version that was read, and not expired; otherwise the call changes nothing |
| Theorems.SuccessIsAnothers | src/aipm/control_plane/executor.py:453-461 | every recorded SUCCEEDED is for a RUNNING action that wrote nothing and never will; its content is the one write of another action authorized for the same revision |
| Theorems.WriterIsNeverCredited | src/aipm/control_plane/lifecycle.py:32-48 | an action that wrote is never recorded as SUCCEEDED by reconciliation, at any later point of any run |
| Theorems.WithoutRivalsNothingIsRecorded | src/aipm/control_plane/executor.py:453-461 | for an action no other one was authorized beside, concluding SUCCEEDED changes nothing |
| Credit.CanBeCredited | src/aipm/control_plane/executor.py:446-461 | from every reachable state a RUNNING action whose content stands as the next revision can be concluded SUCCEEDED, whoever wrote it |
| Credit.SuccessCanBeAnothers | src/aipm/control_plane/executor.py:446-461 | for any two fresh requests with the same content a run exists in which the first is credited with the second one's write, having written nothing |
| Credit.MiscreditIsReachable | src/aipm/control_plane/executor.py:446-461 | such a run starts from the empty store and the conclusion is recorded |
| Alone.ReconcileAlone | src/aipm/control_plane/executor.py:431-481 | run alone with any contract, reconciliation changes anything if and only if the outcome is on record as unknown, the action is live and one look at the plan settles it; then it records exactly that |
| Conditions.ReconcileAnswers | src/aipm/control_plane/executor.py:431-481 | the whole answer of reconciliation, on any state with any contract |
| Alone.ReceiptOnlyAnnotates | src/aipm/control_plane/executor.py:471-530 | whatever the receipt store answers, state and outcome are the same; it only annotates an inconclusive answer, and only if it names this action, this token and the bound contract |
| Theorems.EverythingHappensOnce | src/aipm/control_plane/action_state.py:261-339 | in every run an action enters each state at most once, makes at most eleven transitions, has at most one snapshot and one lease, always token 1, never replaced |
| Theorems.WindowsNest | src/aipm/control_plane/policy.py:275-295 | in every run every confirmation's window is non-empty and ends within its decision's, which is the action's, ends at most five minutes after the decision and no later than the judged plan |
| Theorems.ContractsStayInWindow | src/aipm/control_plane/service.py:778-799 | every contract built anywhere in a run, for an execution, a rollback or a reconciliation, carries exactly the decision's expiry, the authorized plan and fencing token 1 |
| Theorems.GateIsAbaFree | src/aipm/control_plane/gate.py:567-573 | a contract passes the gate later in a run only if no staging switch change was carried out in between and the switch is disengaged |
| Theorems.IndexAgreesWithScan | src/aipm/control_plane/action_state.py:124-128 | in every run the index finds what a scan of the actions finds |
| Theorems.OneDecisionPerKey | src/aipm/control_plane/service.py:272-308 | once a key is bound, by an update or a rollback, every later call in the run gets the same decision for the same request and a conflict for any other |
| Theorems.OneRollbackPerOriginal | src/aipm/control_plane/service.py:597-654 | there is at most one rollback action per original, over the whole run, and its decision stands |
| Reachable.UnlinkedRollbackIsRefused | src/aipm/control_plane/action_state.py:35-70 | a rollback that does not name its original is never registered |
| Progress.FreshRequestCompletes | src/aipm/control_plane/service.py:257-810 | from every reachable state every fresh, acceptable request has a run that carries it through to VERIFIED SUCCESS and changes no other action, plan or caller |
| Progress.VerificationCanFail | src/aipm/control_plane/executor.py:395-415 | for any two fresh requests for one target a run exists in which the first one's read-back fails, because the second is carried out in between |
| Progress.BothEndsAreReachable | src/aipm/control_plane/executor.py:349-425 | from the empty store some run ends in success and some in a failed verification |
| Recovery.RecoverMoves | src/aipm/control_plane/recovery.py:83-130 | one recovery moves exactly an abandoned unexpired lease, fails exactly on an abandoned expired one and otherwise only reports |
| Recovery.RecoverReports | src/aipm/control_plane/recovery.py:83-130 | what recovery answers for each state: the outcome and the advice; CONFIRMED and VERIFICATION_FAILED are among the states it does not recognise |
| Recovery.NonTerminalActionIds | src/aipm/control_plane/action_state.py:130-142 | the first `limit` unfinished actions by creation time and id |
| Recovery.Reconcile | src/aipm/control_plane/recovery_sweep.py:70-108 | the sweep's loop computes the specified sweep over that enumeration |
| Recovery.SweepIsExact | src/aipm/control_plane/recovery_sweep.py:84-108 | exactly the enumerated LEASED, unexpired actions without a live lease move; every id is reported or fails, never both; the moved list is the changed set |
| Recovery.SweepIsIdempotent | src/aipm/control_plane/recovery_sweep.py:84-108 | repeating the sweep at the same instant changes nothing |
| Fence.ReceiptStore.Claim | src/aipm/control_plane/mutation_receipt.py:163-220 | inserts a receipt exactly when the key has none |
| Fence.ReceiptStore.Complete | src/aipm/control_plane/mutation_receipt.py:222-247 | changes a status exactly when it is still RECEIPT_CREATED |
| Fence.StepKeeps | src/aipm/composition/executor_update.py:140-321 | every step of every call, with store failures and crashes anywhere, keeps the fence invariant |
| Fence.FenceHolds | src/aipm/control_plane/mutation_receipt.py:163-247 | in every run each key is claimed at most once and the engine called at most once for it; a refused call never calls it; an answer never contradicts the stored status, then or later |
| Fence.StatusIsFinal | src/aipm/control_plane/mutation_receipt.py:222-247 | a status leaves RECEIPT_CREATED at most once, and the rest of a receipt never changes |
| Verdicts.StatusIsTrue | src/aipm/composition/executor_update.py:206-321 | in every run a stored status and an answer say what the engine returned for that key, which happened exactly once |
| Verdicts.ReturnIsKept | src/aipm/composition/executor_update.py:206-321 | once the engine has returned for a key its receipt is open until completed and then says what was returned |
| Fence.UpdateHandler.Handle | src/aipm/composition/executor_update.py:140-321 | the handler's call equals its steps; it answers if and only if the request is presentable, the key new and the claim went through, and then succeeded, failed or unknown exactly as the engine finished, failed or could not tell; refused means no engine call |
| Fence.RestartExecutor.ExecuteRestart | src/aipm/control_plane/standalone_executor.py:195-297 | the same for the standalone restart; a provider failure is recorded as failed and raised; a claimed key restarts nothing |
| UpdateRun.EngineRunsAtMostOnce | src/aipm/control_plane/service.py:1224-1282 | over all interleavings of callers, crashes and store failures the engine runs at most once per action, and only for a verified action whose requested content is durable |
| UpdateRun.CallerSendsExactly | src/aipm/control_plane/service.py:1241-1262 | over all runs a caller gets to the runtime call if and only if the action was verified after it entered and before it derived its binding, and digest, confirmation and evidence are on record; it then carries token 1 |
| UpdateWitness.OverlappingCallersBothSend | src/aipm/control_plane/service.py:1241-1262 | from every reachable state, for every fresh update request, a run exists in which two callers both reach the runtime call with the same key |
| UpdateWitness.EngineCanRun | src/aipm/composition/executor_update.py:166-260 | and one in which the engine runs for it while the second caller is still about to ask |
| UpdateWitness.EngineIsReachable | src/aipm/composition/executor_update.py:166-260 | both runs exist from the empty store |
| UpdateRun.DeriveIsOk | src/aipm/control_plane/service.py:940-1008 | every binding names a verified action and fencing token 1 |
| OwnerAuth.OwnerAuthenticator.Authenticate | src/aipm/control_plane/owner_auth.py:164-191 | accepts exactly a good secret outside cooldown and lock, and says which of lock and cooldown turned a call away and for how long |
| OwnerAuth.ConsultsAfterDelay | src/aipm/control_plane/owner_auth.py:164-172 | the verifier is consulted exactly when the last failed check is its whole delay ago |
| OwnerAuth.DelaysDouble | src/aipm/control_plane/owner_auth.py:181-191 | below the failure limit the delays double from one second up to half a minute |
| OwnerAuth.GuessRateBound | src/aipm/control_plane/owner_auth.py:164-191 | the (k+1)-th consecutive failed check comes at least the sum of the first k delays after the first |
| OwnerAuth.LockoutRate | src/aipm/control_plane/owner_auth.py:181-187 | from the failure limit on every guess costs a full lockout |
| OwnerAuth.DefaultRate | src/aipm/control_plane/owner_auth.py:114-123 | with the shipped limits the (k+1)-th consecutive guess, for k at least 4, comes at least 15 + 60 (k - 4) seconds after the first |
| Session.OwnerSessionStore.Create | src/aipm/control_plane/session.py:119-134 | issues a session under the current epoch |
| Session.OwnerSessionStore.Get | src/aipm/control_plane/session.py:136-156 | under a clock that never goes back, succeeds exactly when the log replay says the session is live |
| Session.OwnerSessionStore.Rotate | src/aipm/control_plane/session.py:164-170 | replaces a usable session by a new one for the same principal |
| Session.OwnerSessionStore.ActiveCount | src/aipm/control_plane/session.py:172-180 | counts exactly the live sessions |
| Session.OwnerSessionStore.RotateEpoch | src/aipm/control_plane/session.py:182-187 | revokes every session |
| Session.StoreRefinesReplay | src/aipm/control_plane/session.py:48-54 | usable means: current epoch, unrevoked, within lifetime, within the inactivity timeout of the last successful use, usable principal |
| Session.CountIsExact | src/aipm/control_plane/session.py:172-180 | the counted sessions are exactly the live ones of the log |
| Session.RotationIsBounded | src/aipm/control_plane/session.py:164-170 | no chain of rotations outlives the principal it began with |
| RateLimiter.SlidingWindow.Allow | src/aipm/control_plane/transport.py:90-110 | allows exactly when fewer than `limit` of the calls let through since the key was last dropped lie in the closed window, and of all calls let through if it was not dropped within the window; bounds the stored keys |
| RateLimiter.AllowCountsKept | src/aipm/control_plane/transport.py:99-105 | the queue decides as a count over all calls let through since the key was last dropped would |
| RateLimiter.AgreesExactly | src/aipm/control_plane/transport.py:99-110 | the decision is that of a count over the whole history if and only if no forgotten call lies in the window, or the remembered ones fill it, or all together do not |
| RateLimiter.KeptKeyCountsAll | src/aipm/control_plane/transport.py:99-110 | a key not dropped within the window is judged by its whole history |
| RateLimiter.DroppedKeyOverflows | src/aipm/control_plane/transport.py:107-109 | for every configuration with a positive limit and room for some key, and any `max_keys` other keys, a history in which a key is dropped once and gets twice the limit through in one window |
| RateLimiter.WindowBound | src/aipm/control_plane/transport.py:99-110 | in every closed window, wherever it starts, a key gets at most `limit` calls through times one plus the number of times it was dropped in it |
| RateLimiter.LimitHoldsExactly | src/aipm/control_plane/transport.py:90-110 | over all histories of a set of callers, no window holds more than `limit` calls of a key if and only if there is room for every caller (or the limit is zero, or the window negative) |
| RateLimiter.KeysAreBounded | src/aipm/control_plane/transport.py:107-109 | for a positive limit the stored keys never exceed the bound after a call |
| RateLimiter.FewKeysAreKept | src/aipm/control_plane/transport.py:107-109 | while at most `max_keys` keys call, no key is ever dropped |
| RateLimiter.FewKeysCountAll | src/aipm/control_plane/transport.py:99-110 | so then every call is judged by the whole history of its key |
| Frames.DecodeFrame | src/aipm/control_plane/executor_ipc.py:370-381 | for every chunking, result and remaining stream depend on the bytes alone |
| Frames.RecvExact | src/aipm/control_plane/executor_ipc.py:384-392 | what the loop returns, partial data at end of stream included |
| Frames.FrameRoundTrip | src/aipm/control_plane/executor_ipc.py:363-381 | a complete frame decodes to its payload and consumes exactly its bytes |
| Frames.StreamRoundTrip | src/aipm/control_plane/executor_ipc.py:363-381 | frames written in a row come out one by one |
| Frames.DecodeAccepts | src/aipm/control_plane/executor_ipc.py:370-392 | exactly which streams decode, and that the payload is whole if and only if it all arrived |
| Frames.TruncatedFrameIsAccepted | src/aipm/control_plane/executor_ipc.py:384-392 | a stream cut off inside a payload decodes to the fragment |
| Messages.ValidateServiceScope | src/aipm/control_plane/executor_ipc.py:61-95 | accepts exactly non-empty lists of distinct canonical names and returns them unchanged |
| Messages.ExecutionRoundTrip | src/aipm/control_plane/executor_ipc.py:139-235 | every accepted request prints to one that parses to the same value with the same scope |
| Messages.AcceptsExactly | src/aipm/control_plane/executor_ipc.py:139-208 | accepted are exactly the objects of at most sixteen members that spell out a good request |
| Messages.QueryRoundTrip | src/aipm/control_plane/executor_ipc.py:269-295 | queries and their JSON objects correspond one to one |
| Messages.KindsAreDisjoint | src/aipm/control_plane/executor_ipc.py:402-412 | no object is accepted as both kinds, printed messages reach their own parser, and an execution is dispatched as one if and only if it lacks the query marker |

## Left out

- Granularity: each group of reads between two writes (world checks, gate, preconditions) is one step; the invariant uses from them only facts that no later event can change, so finer interleaving adds nothing to it.
- UpdateRun.EngineRunsAtMostOnce: what a caller does between entering and deriving its binding is modelled as events of the control plane that anyone may perform, which allows more runs than the code does.
- Gate.AllowedMeans: says nothing of service evidence, execution bindings and reconciliation categories, branches of the gate which the plan executor does not take in this composition.
- ControlPlane.Service.ExecuteAction: has no session check and no service evidence; sessions are modelled on their own.
- The audit ledger and verification records; they are written and never read by the protocol.
- The SQLite repository; receipt transactions are atomic steps that may fail before or after their commit.
- Hash functions: action, decision and confirmation ids are keys supplied to the model, and contract and plan digests are the values themselves; collisions do not exist here.
- Random ids (snapshots, leases, sessions) are supplied by the environment; snapshot ids are taken to be distinct, since the model lists snapshots in the order they were taken.
- Kill switches and the snapshot repository are always configured; the test-only compositions without them are not modelled.
- The registration fallback plan of the service and the target registry.
- Request text normalisation and the sensitive-marker filter, which only reduce the set of requests.
- Deque capacity of the limiter: a queue holds at most `limit` instants, so the capacity of four times that never applies.
- JSON text syntax, the socket server, peer credentials, and the receipt query response codec.
- HTTP routes, cookies, the dashboard, CLI, host inspection, the update engine itself and the systemd provider, which appear only as arbitrary outcomes.
