/** The control plane as a system of interleaved callers: every event is one
    atomic composite or one read, and callers keep what they read in local
    program counters.  Nothing is assumed about clocks: each call brings its
    own instant. */
module Protocol {
  import opened Types
  import opened Lifecycle
  import opened Plans
  import opened KillSwitch
  import opened Store
  import opened Gate
  import opened Executor
  import opened Service

  /** Where one caller stands, with the values it has read so far. */
  datatype Pc =
    | Idle
    // Executor.execute
    | ExBuilt(c: Contract, now: Time)
    | ExChecked(c: Contract, now: Time, seen: LifecycleState, version: nat)
    | ExBound(c: Contract, now: Time, seen: LifecycleState, version: nat)
    | ExGated(c: Contract, now: Time, seen: LifecycleState, version: nat)
    | ExReady(c: Contract, now: Time, seen: LifecycleState, version: nat)
    | ExBegun(c: Contract, now: Time, version: nat)
    | ExRunning(c: Contract, now: Time, version: nat)
    | ExMutated(c: Contract, now: Time, version: nat)
    | ExObserved(c: Contract, now: Time, version: nat, success: bool)
    | ExRecorded(c: Contract)
    // Executor.reconcile
    | RcBuilt(c: Contract, now: Time)
    | RcAsked(c: Contract, now: Time, version: nat)
    | RcObserved(c: Contract, now: Time, version: nat, verdict: Outcome)
    // Executor.execute_rollback
    | RbChecked(rid: ActionId, oid: ActionId, now: Time, original: Action)
    | RbLeased(rid: ActionId, oid: ActionId, now: Time, original: Action)
    | RbAdmitted(c: Contract, oid: ActionId, now: Time, original: Action)
    | RbBound(c: Contract, oid: ActionId, now: Time, original: Action)
    | RbBegun(c: Contract, oid: ActionId, now: Time, original: Action)
    | RbApproved(c: Contract, oid: ActionId, now: Time, original: Action, snap: Snapshot, version: nat, revision: nat)
    | RbRestored(c: Contract, oid: ActionId, now: Time, original: Action, snap: Snapshot, version: nat)
    | RbObserved(c: Contract, oid: ActionId, now: Time, original: Action, version: nat, success: bool)
    | RbRecorded(c: Contract, oid: ActionId, now: Time, original: Action, success: bool)
    | RbFinished(c: Contract)

  /** Durable state and callers. */
  datatype Sys = Sys(st: State, threads: map<nat, Pc>)

  /** A read that another caller may have overtaken: `seen` picks any plan the
      store has held so far. */
  function StaleRead(s: State, seen: nat): Option<ProjectPlan> {
    if seen < |s.log| then Some(s.log[seen].after) else None
  }

  datatype Event =
    | CreateTarget(target: Target, env: Environment, title: string, objective: string, now: Time, enabled: bool)
    | AuthorizeRequest(call: Call, seen: nat)
    | RequestRollback(call: Call, original: ActionId, planned: nat, seen: nat)
    | FlagRollback(original: ActionId, version: nat, now: Time)
    | AskConfirmation(id: ActionId, pending: ConfirmationId, now: Time)
    | ConfirmAction(cid: ConfirmationId, version: nat, actor: Subject, now: Time)
    | CapturePlan(id: ActionId, version: nat, seen: nat, sid: SnapshotId, now: Time)
    | GrantLease(id: ActionId, version: nat, leaseId: LeaseId, now: Time)
    | ReportOutcome(id: ActionId, version: nat, outcome: Outcome)
    | NoteEvidence(id: ActionId, contract: Contract)
    | Recover(id: ActionId, version: nat, now: Time)
    | ChangeSwitch(change: Change)
    | StartExecute(t: nat, id: ActionId, cid: ConfirmationId, now: Time)
    | StartReconcile(t: nat, id: ActionId, cid: ConfirmationId, now: Time)
    | StartRollback(t: nat, rid: ActionId, oid: ActionId, now: Time)
    | Continue(t: nat, cid: ConfirmationId, leaseId: LeaseId)
    | Crash(t: nat)

  // ----- events without a caller -----------------------------------------

  function Observed(s: State, t: Target, seen: nat): Option<ProjectPlan> {
    var p := StaleRead(s, seen);
    if p.Some? && p.value.target == t then p else None
  }

  /** `request_rollback` up to the registration of the rollback action. */
  function RegisterRollback(s: State, call: Call, original: ActionId, planned: nat, seen: nat): State {
    if original !in s.actions || original !in s.decisions then s else
    var o := s.actions[original];
    var snap := SnapshotFor(s, original);
    var current := Observed(s, o.target, planned);
    if snap.None? || current.None?
       || PlanRollback(o, snap, current.value, s.decisions[original].Mutation()) != Safe then s else
    Authorize(s, call.(request := RollbackRequest(o), seen := Observed(s, o.target, seen)),
              Some(Refs(original, snap.value.id))).state
  }

  /** The one transition recovery makes: a leased action without a live lease. */
  function RecoverState(s: State, id: ActionId, version: nat, now: Time): State {
    if id !in s.actions || s.actions[id].state != Leased || ActiveLease(s, id, now).Some? then s
    else AdvanceAction(s, id, version, ReconciliationRequired, 0, now).state
  }

  function Effect(s: State, e: Event): State {
    match e
    case CreateTarget(target, env, title, objective, now, enabled) =>
      var p := NewPlan(target, env, title, objective, now, enabled);
      if p.Ok? then CreatePlan(s, p.value).state else s
    case AuthorizeRequest(call, seen) =>
      Authorize(s, call.(seen := Observed(s, call.request.target, seen)), None).state
    case RequestRollback(call, original, planned, seen) => RegisterRollback(s, call, original, planned, seen)
    case FlagRollback(original, version, now) =>
      AdvanceRollback(s, original, version, {VerificationFailed, ExecutionFailed}, RollbackRequested, now).state
    case AskConfirmation(id, pending, now) => RequestConfirmation(s, id, pending, now).state
    case ConfirmAction(cid, version, actor, now) => Confirm(s, cid, version, actor, now).state
    case CapturePlan(id, version, seen, sid, now) =>
      var p := StaleRead(s, seen);
      if p.Some? then Capture(s, id, version, p.value, sid, now).state else s
    case GrantLease(id, version, leaseId, now) => AcquireLease(s, id, version, leaseId, now).state
    case ReportOutcome(id, version, outcome) => MarkOutcome(s, id, version, outcome).state
    case NoteEvidence(id, contract) => BindEvidence(s, id, contract).state
    case Recover(id, version, now) => RecoverState(s, id, version, now)
    case ChangeSwitch(change) => s.(switches := Apply(s.switches, change))
    case _ => s
  }

  // ----- one step of one caller -------------------------------------------

  datatype Move = Move(state: State, pc: Pc)

  function StepExecute(s: State, pc: Pc): Move {
    match pc
    case ExBuilt(c, now) =>
      var w := ValidateWorld(s, c, now);
      Move(s, if w.Ok? then ExChecked(c, now, w.value.state, w.value.version) else Idle)
    case ExChecked(c, now, seen, version) =>
      var r := BindFirst(s, c, seen);
      Move(r.state, if r.result.Ok? then ExBound(c, now, seen, version) else Idle)
    case ExBound(c, now, seen, version) =>
      Move(s, if GateFirst(s, c, seen, now) == GateAllowed then ExGated(c, now, seen, version) else Idle)
    case ExGated(c, now, seen, version) =>
      Move(s, if Preconditions(s, c, seen, now).Ok? then ExReady(c, now, seen, version) else Idle)
    case ExReady(c, now, seen, version) =>
      if seen != Leased then Move(s, ExBegun(c, now, version)) else
      var r := BeginExecution(s, c.actionId, version, c.confirmationId, now);
      Move(r.state, if r.result.Ok? then ExBegun(c, now, r.result.value.version) else Idle)
    case ExBegun(c, now, version) =>
      if c.actionId !in s.actions then Move(s, Idle) else
      var a := s.actions[c.actionId];
      Move(s, if a.state == Running then ExRunning(c, now, version)
              else if a.state == ExecutedPendingVerification then ExMutated(c, now, a.version)
              else Idle)
    case ExRunning(c, now, version) =>
      var r := MutatePlan(s, c.actionId, version, c.expectedRevision, c.fields, now);
      Move(r.state, if r.result.Ok? then ExMutated(c, now, r.result.value.version) else Idle)
    case ExMutated(c, now, version) =>
      Move(s, if c.target in s.plans then ExObserved(c, now, version, ReadBack(c, s.plans[c.target])) else Idle)
    case ExObserved(c, now, version, success) =>
      var r := RecordVerification(s, c.actionId, version, success, now);
      Move(r.state, if r.result.Ok? then ExRecorded(c) else Idle)
    case ExRecorded(c) => Move(ReleaseLease(s, c.actionId, c.leaseId, c.fencingToken).state, Idle)
    case _ => Move(s, pc)
  }

  function StepReconcile(s: State, pc: Pc): Move {
    match pc
    case RcBuilt(c, now) =>
      Move(s, if c.actionId in s.actions && c.actionId in s.outcomes && s.outcomes[c.actionId] == UnknownOutcome
              then RcAsked(c, now, s.actions[c.actionId].version) else Idle)
    case RcAsked(c, now, version) =>
      Move(s, if c.target in s.plans then RcObserved(c, now, version, Classify(c, s.plans[c.target])) else Idle)
    case RcObserved(c, now, version, verdict) => Move(Settle(s, c, version, verdict, now).state, Idle)
    case _ => Move(s, pc)
  }

  function StepRollback(s: State, pc: Pc, cid: ConfirmationId, leaseId: LeaseId): Move {
    match pc
    case RbChecked(rid, oid, now, original) =>
      if rid !in s.actions then Move(s, Idle) else
      var r := LeaseRollback(s, rid, leaseId, now);
      Move(r.state, if r.result.Ok? then RbLeased(rid, oid, now, original) else Idle)
    case RbLeased(rid, oid, now, original) =>
      if rid !in s.actions then Move(s, Idle) else
      var r := AdmitRollback(s, rid, cid, now);
      Move(s, if r.Ok? then RbAdmitted(r.value, oid, now, original) else Idle)
    case RbAdmitted(c, oid, now, original) =>
      var r := BindEvidence(s, c.actionId, c);
      Move(r.state, if r.result.Ok? then RbBound(c, oid, now, original) else Idle)
    case RbBound(c, oid, now, original) =>
      if c.actionId !in s.actions then Move(s, Idle) else
      var r := BeginRollback(s, c, now);
      Move(r.state, if r.result.Ok? then RbBegun(c, oid, now, original) else Idle)
    case RbBegun(c, oid, now, original) =>
      var snap := SnapshotFor(s, oid);
      if c.actionId !in s.actions || snap.None? || c.target !in s.plans then Move(s, Idle) else
      var a, revision := s.actions[c.actionId], s.plans[c.target].revision;
      Move(s, if revision != original.planRevision + 1 then Idle
              else if a.state == Running then RbApproved(c, oid, now, original, snap.value, a.version, revision)
              else RbRestored(c, oid, now, original, snap.value, a.version))
    case RbApproved(c, oid, now, original, snap, version, revision) =>
      var r := MutatePlan(s, c.actionId, version, revision, RestoreFields(snap), now);
      Move(r.state, if r.result.Ok? then RbRestored(c, oid, now, original, snap, r.result.value.version) else Idle)
    case RbRestored(c, oid, now, original, snap, version) =>
      if c.actionId !in s.actions || c.target !in s.plans then Move(s, Idle) else
      Move(s, RbObserved(c, oid, now, original, version, RestoredOk(s.actions[c.actionId], snap, s.plans[c.target])))
    case RbObserved(c, oid, now, original, version, success) =>
      var r := RecordVerification(s, c.actionId, version, success, now);
      Move(r.state, if r.result.Ok? then RbRecorded(c, oid, now, original, success) else Idle)
    case RbRecorded(c, oid, now, original, success) =>
      var r := AdvanceRollback(s, oid, original.version, {RollbackRequested},
                               if success then RolledBack else RollbackFailed, now);
      Move(r.state, if r.result.Ok? then RbFinished(c) else Idle)
    case RbFinished(c) => Move(ReleaseLease(s, c.actionId, c.leaseId, c.fencingToken).state, Idle)
    case _ => Move(s, pc)
  }

  function StepCaller(s: State, pc: Pc, cid: ConfirmationId, leaseId: LeaseId): Move {
    if pc.ExBuilt? || pc.ExChecked? || pc.ExBound? || pc.ExGated? || pc.ExReady? || pc.ExBegun? || pc.ExRunning?
       || pc.ExMutated? || pc.ExObserved? || pc.ExRecorded? then StepExecute(s, pc)
    else if pc.RcBuilt? || pc.RcAsked? || pc.RcObserved? then StepReconcile(s, pc)
    else StepRollback(s, pc, cid, leaseId)
  }

  function Pc0(x: Sys, t: nat): Pc { if t in x.threads then x.threads[t] else Idle }

  /** An event that is not enabled changes nothing. */
  function Step(x: Sys, e: Event): Sys {
    match e
    case StartExecute(t, id, cid, now) =>
      var c := ContractForAction(x.st, id, cid, now);
      if Pc0(x, t) == Idle && c.Ok? then x.(threads := x.threads[t := ExBuilt(c.value, now)]) else x
    case StartReconcile(t, id, cid, now) =>
      var c := ContractForReconcile(x.st, id, cid);
      if Pc0(x, t) == Idle && c.Ok? then x.(threads := x.threads[t := RcBuilt(c.value, now)]) else x
    case StartRollback(t, rid, oid, now) =>
      if Pc0(x, t) == Idle && RollbackChecks(x.st, rid, oid, now).Ok?
      then x.(threads := x.threads[t := RbChecked(rid, oid, now, x.st.actions[oid])]) else x
    case Continue(t, cid, leaseId) =>
      var m := StepCaller(x.st, Pc0(x, t), cid, leaseId);
      Sys(m.state, x.threads[t := m.pc])
    case Crash(t) => x.(threads := x.threads[t := Idle])
    case _ => x.(st := Effect(x.st, e))
  }

  function Start(maxRecords: nat, now: Time): Sys { Sys(Initial(maxRecords, now), map[]) }

  /** The state after a sequence of events. */
  function Run(x: Sys, es: seq<Event>): Sys
    decreases |es|
  {
    if es == [] then x else Step(Run(x, es[..|es| - 1]), es[|es| - 1])
  }
}
