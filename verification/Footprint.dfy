/** What each step of the control plane can touch: the composites of `Store`
    first, then the steps of a caller, then the other events. */
module Footprint {
  import opened Types
  import opened Lifecycle
  import opened Plans
  import opened KillSwitch
  import opened Store
  import opened Gate
  import opened Executor
  import opened Service
  import opened Protocol

  /** Authority, captured plans and switches are as they were. */
  predicate Kept(s: State, t: State) {
    && t.switches == s.switches && t.decisions == s.decisions && t.snapshots == s.snapshots && t.index == s.index
    && t.maxRecords == s.maxRecords
  }

  predicate PlansKept(s: State, t: State) { t.plans == s.plans && t.log == s.log }

  /** The only change a confirmation has undergone is to be consumed. */
  ghost predicate OnlyConsumed(s: State, t: State) {
    && t.bindings.Keys == s.bindings.Keys
    && forall c :: c in s.bindings ==>
         || t.bindings[c] == s.bindings[c]
         || (s.bindings[c].state == BindingConfirmed && t.bindings[c] == s.bindings[c].(state := BindingConsumed))
  }

  /** The action is at, or past, its captured snapshot. */
  predicate PastCapture(s: State, id: ActionId) {
    id in s.actions && Rank(s.actions[id].state) <= Rank(SnapshotCaptured)
  }

  /** No action has got past the capture of its snapshot. */
  ghost predicate NoNewcomers(s: State, t: State) { forall id :: PastCapture(t, id) ==> PastCapture(s, id) }

  /** No action has been confirmed, and none has appeared. */
  ghost predicate ApproversKept(s: State, t: State) {
    && t.actions.Keys == s.actions.Keys
    && forall id :: id in s.actions ==> t.actions[id].approver == s.actions[id].approver
  }

  /** An action that got a lease is leased. */
  ghost predicate FreshLeases(s: State, t: State) {
    forall id :: id in t.leases && id !in s.leases ==> id in t.actions && t.actions[id].state == Leased
  }

  ghost predicate Modest(s: State, t: State) {
    Kept(s, t) && OnlyConsumed(s, t) && NoNewcomers(s, t) && ApproversKept(s, t) && FreshLeases(s, t)
  }

  // ----- composites ---------------------------------------------------------

  lemma AdvanceIsModest(s: State, id: ActionId, version: nat, next: LifecycleState, actor: Subject, now: Time)
    requires next != Confirmed
    requires PastCapture(s, id) || Rank(next) > Rank(SnapshotCaptured)
    ensures var t := AdvanceAction(s, id, version, next, actor, now).state; Modest(s, t) && PlansKept(s, t)
  {
  }

  /** Outcomes, evidence and plans are nobody's authority. */
  lemma ModestBeside(s: State, a: State, t: State)
    requires Modest(s, a)
    requires t == a.(outcomes := t.outcomes, evidence := t.evidence, plans := t.plans, log := t.log)
    ensures Modest(s, t)
  {
  }

  lemma ModestLeased(s: State, a: State, t: State, id: ActionId)
    requires Modest(s, a) && a.leases == s.leases && id in a.actions && a.actions[id].state == Leased
    requires id in t.leases && t == a.(leases := s.leases[id := t.leases[id]])
    ensures Modest(s, t)
  {
  }

  lemma ModestAfter(s: State, u: State, t: State)
    requires u == s.(plans := u.plans, log := u.log) && Modest(u, t)
    ensures Modest(s, t)
  {
  }

  lemma LeaseIs(s: State, id: ActionId, version: nat, leaseId: LeaseId, now: Time)
    ensures var t := AcquireLease(s, id, version, leaseId, now).state;
            || t == s
            || (id in s.actions && s.actions[id].state == SnapshotCaptured
                && var a := AdvanceAction(s, id, version, Leased, s.actions[id].requester, now).state;
                   && a.leases == s.leases && id in a.actions && a.actions[id].state == Leased
                   && id in t.leases && t == a.(leases := s.leases[id := t.leases[id]]))
  {
  }

  lemma LeaseIsModest(s: State, id: ActionId, version: nat, leaseId: LeaseId, now: Time)
    ensures var t := AcquireLease(s, id, version, leaseId, now).state; Modest(s, t) && PlansKept(s, t)
  {
    var t := AcquireLease(s, id, version, leaseId, now).state;
    LeaseIs(s, id, version, leaseId, now);
    if t != s {
      AdvanceIsModest(s, id, version, Leased, s.actions[id].requester, now);
      ModestLeased(s, AdvanceAction(s, id, version, Leased, s.actions[id].requester, now).state, t, id);
    }
  }

  lemma BeginIs(s: State, id: ActionId, version: nat, cid: ConfirmationId, now: Time)
    ensures var t := BeginExecution(s, id, version, cid, now).state;
            || t == s
            || (id in s.actions && s.actions[id].state == Leased
                && cid in s.bindings && s.bindings[cid].state == BindingConfirmed
                && t == AdvanceAction(s, id, version, Running, s.actions[id].requester, now).state.(
                          bindings := s.bindings[cid := s.bindings[cid].(state := BindingConsumed)]))
  {
  }

  lemma ModestConsumes(s: State, a: State, t: State, cid: ConfirmationId)
    requires Modest(s, a) && a.bindings == s.bindings && cid in s.bindings && s.bindings[cid].state == BindingConfirmed
    requires t == a.(bindings := s.bindings[cid := s.bindings[cid].(state := BindingConsumed)])
    ensures Modest(s, t)
  {
  }

  lemma BeginIsModest(s: State, id: ActionId, version: nat, cid: ConfirmationId, now: Time)
    ensures var t := BeginExecution(s, id, version, cid, now).state; Modest(s, t) && PlansKept(s, t)
  {
    var t := BeginExecution(s, id, version, cid, now).state;
    BeginIs(s, id, version, cid, now);
    if t != s {
      AdvanceIsModest(s, id, version, Running, s.actions[id].requester, now);
      var a := AdvanceAction(s, id, version, Running, s.actions[id].requester, now).state;
      AdvanceKeepsBindings(s, id, version, Running, s.actions[id].requester, now);
      ModestConsumes(s, a, t, cid);
    }
  }

  lemma AdvanceKeepsBindings(s: State, id: ActionId, version: nat, next: LifecycleState, actor: Subject, now: Time)
    ensures AdvanceAction(s, id, version, next, actor, now).state.bindings == s.bindings
  {
  }

  /** The one composite that writes a plan for an action. */
  ghost predicate WritesFor(s: State, t: State, id: ActionId) {
    t.log == s.log || (|t.log| == |s.log| + 1 && s.log <= t.log && t.log[|s.log|].author == By(id))
  }

  lemma UpdateWrites(s: State, id: ActionId, target: Target, revision: nat, fields: Fields, now: Time)
    ensures var t := UpdatePlan(s, id, target, revision, fields, now).state;
            WritesFor(s, t, id) && t == s.(plans := t.plans, log := t.log)
  {
  }

  lemma MutateIs(s: State, id: ActionId, version: nat, revision: nat, fields: Fields, now: Time)
    ensures var t := MutatePlan(s, id, version, revision, fields, now).state;
            || t == s
            || (id in s.actions && s.actions[id].state == Running
                && var u := UpdatePlan(s, id, s.actions[id].target, revision, fields, now).state;
                   var a := AdvanceAction(u, id, version, ExecutedPendingVerification, s.actions[id].requester, now);
                   t == a.state.(outcomes := t.outcomes))
  {
  }

  lemma AdvanceKeepsPlans(s: State, id: ActionId, version: nat, next: LifecycleState, actor: Subject, now: Time)
    ensures PlansKept(s, AdvanceAction(s, id, version, next, actor, now).state)
  {
  }

  lemma MutateIsModest(s: State, id: ActionId, version: nat, revision: nat, fields: Fields, now: Time)
    ensures var t := MutatePlan(s, id, version, revision, fields, now).state; Modest(s, t) && WritesFor(s, t, id)
  {
    var t := MutatePlan(s, id, version, revision, fields, now).state;
    MutateIs(s, id, version, revision, fields, now);
    if t != s {
      var u := UpdatePlan(s, id, s.actions[id].target, revision, fields, now).state;
      UpdateWrites(s, id, s.actions[id].target, revision, fields, now);
      AdvanceIsModest(u, id, version, ExecutedPendingVerification, s.actions[id].requester, now);
      AdvanceKeepsPlans(u, id, version, ExecutedPendingVerification, s.actions[id].requester, now);
      var a := AdvanceAction(u, id, version, ExecutedPendingVerification, s.actions[id].requester, now).state;
      ModestAfter(s, u, a);
      ModestBeside(s, a, t);
    }
  }

  lemma RecordIs(s: State, id: ActionId, version: nat, success: bool, now: Time)
    ensures var t, next := RecordVerification(s, id, version, success, now).state,
                           if success then VerifiedSuccess else VerificationFailed;
            || t == s
            || (id in s.actions && s.actions[id].state == ExecutedPendingVerification
                && var a := AdvanceAction(s, id, version, next, s.actions[id].requester, now).state;
                   t == a.(outcomes := t.outcomes))
  {
  }

  lemma RecordIsModest(s: State, id: ActionId, version: nat, success: bool, now: Time)
    ensures var t := RecordVerification(s, id, version, success, now).state; Modest(s, t) && PlansKept(s, t)
  {
    var t, next := RecordVerification(s, id, version, success, now).state,
                   if success then VerifiedSuccess else VerificationFailed;
    RecordIs(s, id, version, success, now);
    if t != s {
      AdvanceIsModest(s, id, version, next, s.actions[id].requester, now);
      ModestBeside(s, AdvanceAction(s, id, version, next, s.actions[id].requester, now).state, t);
    }
  }

  /** The table leads to these states only from past the capture. */
  lemma LateStates(a: Action, next: LifecycleState, now: Time, actor: Subject)
    requires next == ExecutedPendingVerification || next == ReconciliationRequired || next == RollbackRequested
    requires Advance(a, next, Some(now), Some(actor)).Ok?
    ensures Rank(a.state) <= Rank(SnapshotCaptured)
  {
  }

  lemma LateAdvanceIsModest(s: State, id: ActionId, version: nat, next: LifecycleState, actor: Subject, now: Time)
    requires next == ExecutedPendingVerification || next == ReconciliationRequired || next == RollbackRequested
    ensures var t := AdvanceAction(s, id, version, next, actor, now).state; Modest(s, t) && PlansKept(s, t)
  {
    if AdvanceAction(s, id, version, next, actor, now).result.Ok? {
      LateStates(s.actions[id], next, now, actor);
      AdvanceIsModest(s, id, version, next, actor, now);
    }
  }

  lemma MarkIsModest(s: State, id: ActionId, version: nat, next: LifecycleState, outcome: Outcome, now: Time)
    requires next == ExecutedPendingVerification || next == ReconciliationRequired
    ensures var t := MarkReconciled(s, id, version, next, outcome, now).state; Modest(s, t) && PlansKept(s, t)
  {
    if id in s.actions { LateAdvanceIsModest(s, id, version, next, s.actions[id].requester, now); }
  }

  lemma SettleIs(s: State, c: Contract, version: nat, verdict: Outcome, now: Time)
    ensures Settle(s, c, version, verdict, now).state ==
            if verdict == MutationSucceeded
            then MarkReconciled(s, c.actionId, version, ExecutedPendingVerification, MutationSucceeded, now).state
            else if verdict == MutationNotStarted
            then MarkReconciled(s, c.actionId, version, ReconciliationRequired, MutationNotStarted, now).state
            else s
  {
  }

  lemma SettleIsModest(s: State, c: Contract, version: nat, verdict: Outcome, now: Time)
    ensures var t := Settle(s, c, version, verdict, now).state; Modest(s, t) && PlansKept(s, t)
  {
    SettleIs(s, c, version, verdict, now);
    if verdict == MutationSucceeded {
      MarkIsModest(s, c.actionId, version, ExecutedPendingVerification, MutationSucceeded, now);
    } else if verdict == MutationNotStarted {
      MarkIsModest(s, c.actionId, version, ReconciliationRequired, MutationNotStarted, now);
    }
  }

  lemma FlagIsModest(s: State, id: ActionId, version: nat, from: set<LifecycleState>, next: LifecycleState, now: Time)
    requires forall st :: st in from ==> Rank(st) <= Rank(SnapshotCaptured)
    requires next != Confirmed
    ensures var t := AdvanceRollback(s, id, version, from, next, now).state; Modest(s, t) && PlansKept(s, t)
  {
    if id in s.actions && s.actions[id].state in from {
      AdvanceIsModest(s, id, version, next, s.actions[id].requester, now);
    }
  }

  lemma ReleaseIsModest(s: State, id: ActionId, leaseId: LeaseId, token: nat)
    ensures var t := ReleaseLease(s, id, leaseId, token).state; Modest(s, t) && PlansKept(s, t)
  {
  }

  lemma BindIsModest(s: State, id: ActionId, c: Contract)
    ensures var t := BindEvidence(s, id, c).state; Modest(s, t) && PlansKept(s, t)
  {
  }

  lemma MarkOutcomeIsModest(s: State, id: ActionId, version: nat, outcome: Outcome)
    ensures var t := MarkOutcome(s, id, version, outcome).state; Modest(s, t) && PlansKept(s, t)
  {
  }

  // ----- steps of a caller --------------------------------------------------

  /** A caller writes plans only in its mutating step. */
  predicate Writing(pc: Pc) { pc.ExRunning? || pc.RbApproved? }

  lemma ExecuteNotes(s: State, pc: Pc)
    requires pc.ExChecked? || pc.ExObserved? || pc.ExRecorded?
    ensures var t := StepExecute(s, pc).state; Modest(s, t) && PlansKept(s, t)
  {
    if pc.ExChecked? { BindIsModest(s, pc.c.actionId, pc.c); }
    else if pc.ExObserved? { RecordIsModest(s, pc.c.actionId, pc.version, pc.success, pc.now); }
    else { ReleaseIsModest(s, pc.c.actionId, pc.c.leaseId, pc.c.fencingToken); }
  }

  lemma ExecuteReads(s: State, pc: Pc)
    requires !(pc.ExChecked? || pc.ExObserved? || pc.ExRecorded? || pc.ExReady? || pc.ExRunning?)
    ensures StepExecute(s, pc).state == s
  {
  }

  lemma ExecuteIsModest(s: State, pc: Pc)
    ensures var t := StepExecute(s, pc).state; Modest(s, t) && (pc.ExRunning? || PlansKept(s, t))
    ensures pc.ExRunning? ==> WritesFor(s, StepExecute(s, pc).state, pc.c.actionId)
  {
    if pc.ExReady? { BeginIsModest(s, pc.c.actionId, pc.version, pc.c.confirmationId, pc.now); }
    else if pc.ExRunning? {
      MutateIsModest(s, pc.c.actionId, pc.version, pc.c.expectedRevision, pc.c.fields, pc.now);
    } else if pc.ExChecked? || pc.ExObserved? || pc.ExRecorded? { ExecuteNotes(s, pc); }
    else { ExecuteReads(s, pc); }
  }

  lemma ReconcileIsModest(s: State, pc: Pc)
    ensures var t := StepReconcile(s, pc).state; Modest(s, t) && PlansKept(s, t)
  {
    if pc.RcObserved? { SettleIsModest(s, pc.c, pc.version, pc.verdict, pc.now); }
  }

  lemma RollbackLeaseIsModest(s: State, pc: Pc, cid: ConfirmationId, leaseId: LeaseId)
    requires pc.RbChecked?
    ensures var t := StepRollback(s, pc, cid, leaseId).state; Modest(s, t) && PlansKept(s, t)
  {
    if pc.rid in s.actions { LeaseIsModest(s, pc.rid, s.actions[pc.rid].version, leaseId, pc.now); }
  }

  lemma RollbackStartIsModest(s: State, pc: Pc, cid: ConfirmationId, leaseId: LeaseId)
    requires pc.RbChecked? || pc.RbAdmitted? || pc.RbBound?
    ensures var t := StepRollback(s, pc, cid, leaseId).state; Modest(s, t) && PlansKept(s, t)
  {
    if pc.RbChecked? { RollbackLeaseIsModest(s, pc, cid, leaseId); }
    else if pc.RbAdmitted? { BindIsModest(s, pc.c.actionId, pc.c); }
    else { BeginIsModest(s, pc.c.actionId, pc.c.actionVersion, pc.c.confirmationId, pc.now); }
  }

  lemma VerdictIsModest(s: State, pc: Pc, cid: ConfirmationId, leaseId: LeaseId)
    requires pc.RbRecorded?
    ensures var t := StepRollback(s, pc, cid, leaseId).state; Modest(s, t) && PlansKept(s, t)
  {
    FlagIsModest(s, pc.oid, pc.original.version, {RollbackRequested},
                 if pc.success then RolledBack else RollbackFailed, pc.now);
  }

  lemma RollbackEndIsModest(s: State, pc: Pc, cid: ConfirmationId, leaseId: LeaseId)
    requires pc.RbObserved? || pc.RbRecorded? || pc.RbFinished?
    ensures var t := StepRollback(s, pc, cid, leaseId).state; Modest(s, t) && PlansKept(s, t)
  {
    if pc.RbObserved? { RecordIsModest(s, pc.c.actionId, pc.version, pc.success, pc.now); }
    else if pc.RbRecorded? { VerdictIsModest(s, pc, cid, leaseId); }
    else { ReleaseIsModest(s, pc.c.actionId, pc.c.leaseId, pc.c.fencingToken); }
  }

  lemma RestoreIsModest(s: State, pc: Pc, cid: ConfirmationId, leaseId: LeaseId)
    requires pc.RbApproved?
    ensures Modest(s, StepRollback(s, pc, cid, leaseId).state)
  {
    MutateIsModest(s, pc.c.actionId, pc.version, pc.revision, RestoreFields(pc.snap), pc.now);
  }

  lemma RollbackReads(s: State, pc: Pc, cid: ConfirmationId, leaseId: LeaseId)
    requires !(pc.RbChecked? || pc.RbAdmitted? || pc.RbBound? || pc.RbApproved? || pc.RbObserved? || pc.RbRecorded?
               || pc.RbFinished?)
    ensures StepRollback(s, pc, cid, leaseId).state == s
  {
  }

  lemma RollbackIsModest(s: State, pc: Pc, cid: ConfirmationId, leaseId: LeaseId)
    ensures var t := StepRollback(s, pc, cid, leaseId).state; Modest(s, t) && (pc.RbApproved? || PlansKept(s, t))
  {
    if pc.RbChecked? || pc.RbAdmitted? || pc.RbBound? { RollbackStartIsModest(s, pc, cid, leaseId); }
    else if pc.RbObserved? || pc.RbRecorded? || pc.RbFinished? { RollbackEndIsModest(s, pc, cid, leaseId); }
    else if pc.RbApproved? { RestoreIsModest(s, pc, cid, leaseId); }
    else { RollbackReads(s, pc, cid, leaseId); }
  }

  lemma CallerIsModest(s: State, pc: Pc, cid: ConfirmationId, leaseId: LeaseId)
    ensures var t := StepCaller(s, pc, cid, leaseId).state; Modest(s, t) && (Writing(pc) || PlansKept(s, t))
    ensures pc.ExRunning? ==> WritesFor(s, StepCaller(s, pc, cid, leaseId).state, pc.c.actionId)
  {
    ExecuteIsModest(s, pc);
    ReconcileIsModest(s, pc);
    RollbackIsModest(s, pc, cid, leaseId);
  }

  // ----- the other events ---------------------------------------------------

  /** Events that neither authorize, confirm, capture, create nor switch. */
  predicate Routine(e: Event) {
    e.FlagRollback? || e.GrantLease? || e.ReportOutcome? || e.NoteEvidence? || e.Recover?
  }

  lemma NotesAreModest(s: State, e: Event)
    requires e.ReportOutcome? || e.NoteEvidence? || e.GrantLease?
    ensures Modest(s, Effect(s, e)) && PlansKept(s, Effect(s, e))
  {
    if e.ReportOutcome? { MarkOutcomeIsModest(s, e.id, e.version, e.outcome); }
    else if e.NoteEvidence? { BindIsModest(s, e.id, e.contract); }
    else { LeaseIsModest(s, e.id, e.version, e.leaseId, e.now); }
  }

  lemma FlagEventIsModest(s: State, e: Event)
    requires e.FlagRollback?
    ensures Modest(s, Effect(s, e)) && PlansKept(s, Effect(s, e))
  {
    FlagIsModest(s, e.original, e.version, {VerificationFailed, ExecutionFailed}, RollbackRequested, e.now);
  }

  lemma RecoverIsModest(s: State, e: Event)
    requires e.Recover?
    ensures Modest(s, Effect(s, e)) && PlansKept(s, Effect(s, e))
  {
    LateAdvanceIsModest(s, e.id, e.version, ReconciliationRequired, 0, e.now);
  }

  lemma RoutineIsModest(s: State, e: Event)
    requires Routine(e)
    ensures Modest(s, Effect(s, e)) && PlansKept(s, Effect(s, e))
  {
    if e.FlagRollback? { FlagEventIsModest(s, e); }
    else if e.Recover? { RecoverIsModest(s, e); }
    else { NotesAreModest(s, e); }
  }

  /** Events that only move a caller. */
  predicate Private(e: Event) { e.StartExecute? || e.StartReconcile? || e.StartRollback? || e.Crash? }

  /** A decision that was made for this call is registered, or nothing happens. */
  ghost predicate Registered(s: State, t: State, k: Call, refs: Option<Refs>) {
    || t == s
    || (&& Judge(k).Allowed?
        && var d, id := Judge(k).decision, k.actionId;
           && id !in s.actions && id in t.actions && t.actions == s.actions[id := t.actions[id]]
           && t.decisions == s.decisions[id := d] && t.index == s.index[k.request.IndexKey() := id]
           && t == s.(actions := t.actions, decisions := t.decisions, index := t.index)
           && t.actions[id] == FreshAction(d, refs).(state := ConfirmationRequired, version := 2))
  }

  lemma AuthorizeRegisters(s: State, k: Call, refs: Option<Refs>)
    requires IndexOk(s.actions, s.index)
    ensures Registered(s, Authorize(s, k, refs).state, k, refs)
  {
    var r := Authorize(s, k, refs);
    if FindByKey(s, k.request.IndexKey()).None? && r.result.Ok? && r.result.value.Allowed? {
      RegisteredWindow(s, k, refs);
    }
  }

  // ----- all events -----------------------------------------------------------

  /** Nothing was authorized, asked, confirmed or captured. */
  ghost predicate Uneventful(s: State, t: State) {
    && t.decisions == s.decisions && t.snapshots == s.snapshots
    && OnlyConsumed(s, t) && NoNewcomers(s, t) && ApproversKept(s, t) && FreshLeases(s, t)
  }

  /** All other events. */
  predicate Ordinary(e: Event) {
    e.Continue? || Private(e) || Routine(e) || e.CreateTarget? || e.ChangeSwitch?
  }

  lemma CreateIs(s: State, p: ProjectPlan)
    ensures var t := CreatePlan(s, p).state;
            && t == s.(plans := t.plans, log := t.log)
            && (t.log == s.log || (|t.log| == |s.log| + 1 && s.log <= t.log && t.log[|s.log|].author == Creator))
  {
  }

  lemma CreateTouchesPlans(s: State, e: Event)
    requires e.CreateTarget?
    ensures var t := Effect(s, e);
            && t == s.(plans := t.plans, log := t.log)
            && (t.log == s.log || (|t.log| == |s.log| + 1 && s.log <= t.log && t.log[|s.log|].author == Creator))
  {
    var p := NewPlan(e.target, e.env, e.title, e.objective, e.now, e.enabled);
    if p.Ok? { CreateIs(s, p.value); }
  }

  lemma ModestIsUneventful(s: State, t: State)
    requires Modest(s, t)
    ensures Uneventful(s, t)
  {
  }

  lemma CallerStepIsModest(x: Sys, e: Event)
    requires e.Continue?
    ensures Modest(x.st, Step(x, e).st)
  {
    CallerIsModest(x.st, Pc0(x, e.t), e.cid, e.leaseId);
  }

  lemma OperatorIsUneventful(x: Sys, e: Event)
    requires e.CreateTarget? || e.ChangeSwitch?
    ensures Uneventful(x.st, Step(x, e).st)
  {
    if e.CreateTarget? { CreateTouchesPlans(x.st, e); }
  }

  lemma RoutineStepIsModest(x: Sys, e: Event)
    requires Routine(e)
    ensures Modest(x.st, Step(x, e).st)
  {
    RoutineIsModest(x.st, e);
  }

  lemma PrivateChangesNothing(x: Sys, e: Event)
    requires Private(e)
    ensures Step(x, e).st == x.st
  {
  }

  lemma OrdinaryIsUneventful(x: Sys, e: Event)
    requires Ordinary(e)
    ensures Uneventful(x.st, Step(x, e).st)
  {
    var t := Step(x, e).st;
    if e.CreateTarget? || e.ChangeSwitch? {
      OperatorIsUneventful(x, e);
    } else if Private(e) {
      PrivateChangesNothing(x, e);
    } else {
      if e.Continue? { CallerStepIsModest(x, e); } else { RoutineStepIsModest(x, e); }
      ModestIsUneventful(x.st, t);
    }
  }

  lemma ModestKeepsSwitches(s: State, t: State)
    requires Modest(s, t)
    ensures t.switches == s.switches
  {
  }

  /** The switches move only by the operator's verbs. */
  lemma SwitchesStay(x: Sys, e: Event)
    requires !e.ChangeSwitch?
    ensures Step(x, e).st.switches == x.st.switches
  {
    if e.Continue? || Routine(e) {
      if e.Continue? { CallerStepIsModest(x, e); } else { RoutineStepIsModest(x, e); }
      ModestKeepsSwitches(x.st, Step(x, e).st);
    } else if e.CreateTarget? {
      CreateTouchesPlans(x.st, e);
    }
  }

  /** Asking touches the confirmations only. */
  lemma AskingTouchesBindings(s: State, id: ActionId, pending: ConfirmationId, now: Time)
    ensures var t := RequestConfirmation(s, id, pending, now).state; t == s.(bindings := t.bindings)
  {
  }

  /** A confirming act puts the confirmation on record, even where the action
      then cannot take it. */
  lemma ConfirmingIs(s: State, cid: ConfirmationId, version: nat, actor: Subject, now: Time)
    ensures var t := Confirm(s, cid, version, actor, now).state;
            || t == s
            || (&& cid in s.bindings && BuildConfirmation(s.bindings[cid], actor, now).Ok?
                && var b := BuildConfirmation(s.bindings[cid], actor, now).value;
                   && b.state == BindingConfirmed
                   && t == AdvanceAction(PutBinding(s, b), b.actionId, version, Confirmed, actor, now).state)
  {
  }
}
