/** Every event keeps the invariant, whatever the other callers are doing. */
module Reachable {
  import opened Types
  import opened Lifecycle
  import opened Plans
  import opened KillSwitch
  import opened Store
  import opened Gate
  import opened Executor
  import opened Service
  import opened Protocol
  import opened Invariant
  import opened Preservation

  /** The contract is the one the service builds from the action's decision. */
  predicate Bound(s: State, c: Contract) {
    && c.actionId in s.actions && c.actionId in s.decisions
    && var a, d := s.actions[c.actionId], s.decisions[c.actionId];
       && a.operation == UpdateProjectPlan && c.target == a.target && c.environment == a.environment
       && c.expectedRevision == a.planRevision
       && c.expectedDigest == d.identity.targetDigest && c.fields == d.Mutation()
  }

  predicate Live(s: State, c: Contract, now: Time) { Bound(s, c) && now < s.actions[c.actionId].expiresAt }

  /** No write by the action can have happened without its version moving on. */
  ghost predicate UnwrittenAt(s: State, id: ActionId, version: nat)
    requires id in s.actions
  {
    && version <= s.actions[id].version
    && forall i :: 0 <= i < |s.log| && s.log[i].author == By(id) ==> s.actions[id].version > version
  }

  /** A rollback under way is for an action that has been overtaken. */
  predicate Doomed(s: State, rid: ActionId, oid: ActionId, original: Action) {
    && rid in s.actions && oid in s.actions && s.actions[rid].rollbackOf == Some(oid)
    && s.actions[rid].target == s.actions[oid].target
    && original.planRevision == s.actions[oid].planRevision
    && Overtaken(s, s.actions[oid])
  }

  predicate DoomedContract(s: State, c: Contract, oid: ActionId, original: Action) {
    Doomed(s, c.actionId, oid, original) && c.target == s.actions[c.actionId].target
  }

  /** What each program counter is entitled to know, however stale its reads. */
  ghost predicate PcOk(s: State, pc: Pc) {
    match pc
    case Idle => true
    case ExBuilt(c, now) => Bound(s, c)
    case ExChecked(c, now, seen, version) => Live(s, c, now)
    case ExBound(c, now, seen, version) => Live(s, c, now)
    case ExGated(c, now, seen, version) => Live(s, c, now)
    case ExReady(c, now, seen, version) => Live(s, c, now)
    case ExBegun(c, now, version) => Live(s, c, now)
    case ExRunning(c, now, version) => Live(s, c, now)
    case ExMutated(c, now, version) => Live(s, c, now) && Landed(s, s.actions[c.actionId], c.fields)
    case ExObserved(c, now, version, success) =>
      Live(s, c, now) && (!success ==> Overtaken(s, s.actions[c.actionId]))
    case ExRecorded(c) => true
    case RcBuilt(c, now) => Bound(s, c)
    case RcAsked(c, now, version) => Bound(s, c) && version <= s.actions[c.actionId].version
    case RcObserved(c, now, version, verdict) =>
      && Bound(s, c)
      && (verdict == MutationSucceeded ==> Landed(s, s.actions[c.actionId], c.fields))
      && (verdict == MutationNotStarted ==> UnwrittenAt(s, c.actionId, version))
    case RbChecked(rid, oid, now, original) => Doomed(s, rid, oid, original)
    case RbLeased(rid, oid, now, original) => Doomed(s, rid, oid, original)
    case RbAdmitted(c, oid, now, original) => DoomedContract(s, c, oid, original)
    case RbBound(c, oid, now, original) => DoomedContract(s, c, oid, original)
    case RbBegun(c, oid, now, original) => DoomedContract(s, c, oid, original)
    case _ => false
  }

  // ----- what callers know stays true --------------------------------------

  lemma BoundStays(s: State, t: State, c: Contract)
    requires Bound(s, c) && Evolves(s, t)
    ensures Bound(t, c) && t.actions[c.actionId].expiresAt == s.actions[c.actionId].expiresAt
    ensures Overtaken(s, s.actions[c.actionId]) ==> Overtaken(t, t.actions[c.actionId])
    ensures Landed(s, s.actions[c.actionId], c.fields) ==> Landed(t, t.actions[c.actionId], c.fields)
  {
    assert IdEvolves(s, t, c.actionId) && PlanEvolves(s, t, c.target);
    var a, b := s.actions[c.actionId], t.actions[c.actionId];
    assert a.Fixed() == b.Fixed();
    if Landed(s, a, c.fields) { LandedGrows(s, t, a, c.fields); }
  }

  lemma UnwrittenStays(s: State, t: State, id: ActionId, version: nat)
    requires id in s.actions && UnwrittenAt(s, id, version) && Evolves(s, t)
    ensures id in t.actions && UnwrittenAt(t, id, version)
  {
    assert IdEvolves(s, t, id);
    forall i | 0 <= i < |t.log| && t.log[i].author == By(id) ensures t.actions[id].version > version {
      if i < |s.log| { assert t.log[i] == s.log[i]; } else { assert LateWrite(s, t, t.log[i]); }
    }
  }

  lemma DoomedStays(s: State, t: State, rid: ActionId, oid: ActionId, original: Action)
    requires Doomed(s, rid, oid, original) && Evolves(s, t)
    ensures Doomed(t, rid, oid, original) && t.actions[rid].target == s.actions[rid].target
  {
    assert IdEvolves(s, t, rid) && IdEvolves(s, t, oid) && PlanEvolves(s, t, s.actions[oid].target);
    assert s.actions[rid].Fixed() == t.actions[rid].Fixed() && s.actions[oid].Fixed() == t.actions[oid].Fixed();
  }

  lemma ExecutePcStays(s: State, t: State, pc: Pc)
    requires PcOk(s, pc) && Evolves(s, t)
    requires pc.ExBuilt? || pc.ExChecked? || pc.ExBound? || pc.ExGated? || pc.ExReady? || pc.ExBegun? || pc.ExRunning?
             || pc.ExMutated? || pc.ExObserved?
    ensures PcOk(t, pc)
  {
    BoundStays(s, t, pc.c);
  }

  lemma ReconcilePcStays(s: State, t: State, pc: Pc)
    requires PcOk(s, pc) && Evolves(s, t) && (pc.RcBuilt? || pc.RcAsked? || pc.RcObserved?)
    ensures PcOk(t, pc)
  {
    BoundStays(s, t, pc.c);
    assert IdEvolves(s, t, pc.c.actionId);
    if pc.RcObserved? && pc.verdict == MutationNotStarted { UnwrittenStays(s, t, pc.c.actionId, pc.version); }
  }

  lemma RollbackPcStays(s: State, t: State, pc: Pc)
    requires PcOk(s, pc) && Evolves(s, t)
    requires pc.RbChecked? || pc.RbLeased? || pc.RbAdmitted? || pc.RbBound? || pc.RbBegun?
    ensures PcOk(t, pc)
  {
    if pc.RbChecked? || pc.RbLeased? { DoomedStays(s, t, pc.rid, pc.oid, pc.original); }
    else { DoomedStays(s, t, pc.c.actionId, pc.oid, pc.original); }
  }

  lemma PcStays(s: State, t: State, pc: Pc)
    requires PcOk(s, pc) && Evolves(s, t)
    ensures PcOk(t, pc)
  {
    if pc.RcBuilt? || pc.RcAsked? || pc.RcObserved? { ReconcilePcStays(s, t, pc); }
    else if pc.RbChecked? || pc.RbLeased? || pc.RbAdmitted? || pc.RbBound? || pc.RbBegun? { RollbackPcStays(s, t, pc); }
    else if !pc.Idle? && !pc.ExRecorded? { ExecutePcStays(s, t, pc); }
  }

  /** One step of one caller keeps the invariant, and the caller is entitled to
      where it goes. */
  ghost predicate GoodMove(s: State, m: Move) { Keeps(s, m.state) && PcOk(m.state, m.pc) }

  // ----- execute ----------------------------------------------------------

  /** The heart of the matter: once the requested content has landed, a
      read-back can only fail because the target has moved on. */
  lemma FailedReadBackMeansOvertaken(s: State, c: Contract)
    requires Inv(s) && Bound(s, c) && Landed(s, s.actions[c.actionId], c.fields) && c.target in s.plans
    ensures !ReadBack(c, s.plans[c.target]) ==> Overtaken(s, s.actions[c.actionId])
  {
    var p, a := s.plans[c.target], s.actions[c.actionId];
    var q :| Logged(s.log, a.target, q) && q.revision == a.planRevision + 1 && Carries(q, c.fields);
    assert ActionOk(s, c.actionId);
    assert StoredOk(s.plans, s.log, c.target);
    LoggedIsStaging(s.plans, s.log, c.target, p);
    LoggedIsStaging(s.plans, s.log, c.target, q);
    if p.revision == q.revision { RevisionPinsPlan(s.log, c.target, p, q); }
  }

  /** After the checks of `_validate_world` the contract is also live. */
  lemma WorldCheckMeansLive(s: State, c: Contract, now: Time)
    requires Bound(s, c) && ValidateWorld(s, c, now).Ok?
    ensures Live(s, c, now)
  {
  }

  lemma ResumeMeansLanded(s: State, c: Contract, now: Time)
    requires Inv(s) && Live(s, c, now) && s.actions[c.actionId].state == ExecutedPendingVerification
    ensures Landed(s, s.actions[c.actionId], c.fields)
  {
    assert ActionOk(s, c.actionId);
  }

  lemma ExecuteBinds(s: State, c: Contract, now: Time, seen: LifecycleState, version: nat)
    requires Inv(s) && Live(s, c, now)
    ensures GoodMove(s, StepExecute(s, ExChecked(c, now, seen, version)))
  {
    if seen != Leased { EvolvesRefl(s); return; }
    EvidenceKeeps(s, c.actionId, c);
    BoundStays(s, BindEvidence(s, c.actionId, c).state, c);
  }

  lemma LiveStays(s: State, t: State, c: Contract, now: Time)
    requires Live(s, c, now) && Evolves(s, t)
    ensures Live(t, c, now)
  {
    BoundStays(s, t, c);
  }

  lemma BeginStepIs(s: State, c: Contract, now: Time, seen: LifecycleState, version: nat)
    ensures var r := BeginExecution(s, c.actionId, version, c.confirmationId, now);
            StepExecute(s, ExReady(c, now, seen, version)) ==
              if seen != Leased then Move(s, ExBegun(c, now, version))
              else Move(r.state, if r.result.Ok? then ExBegun(c, now, r.result.value.version) else Idle)
  {
  }

  lemma ExecuteBegins(s: State, c: Contract, now: Time, seen: LifecycleState, version: nat)
    requires Inv(s) && Live(s, c, now)
    ensures GoodMove(s, StepExecute(s, ExReady(c, now, seen, version)))
  {
    BeginStepIs(s, c, now, seen, version);
    var m := StepExecute(s, ExReady(c, now, seen, version));
    if seen != Leased { EvolvesRefl(s); return; }
    BeginKeeps(s, c.actionId, version, c.confirmationId, now);
    LiveStays(s, m.state, c, now);
  }

  lemma ExecuteMutates(s: State, c: Contract, now: Time, version: nat)
    requires Inv(s) && Live(s, c, now)
    ensures GoodMove(s, StepExecute(s, ExRunning(c, now, version)))
  {
    var a := s.actions[c.actionId];
    var r := MutatePlan(s, c.actionId, version, a.planRevision, c.fields, now);
    MutateKeeps(s, c.actionId, version, now);
    BoundStays(s, r.state, c);
    if r.result.Ok? {
      assert Landed(r.state, r.state.actions[c.actionId], c.fields);
    }
  }

  // ----- reconcile --------------------------------------------------------

  /** An observation of the authorized plan excludes that the action wrote. */
  lemma PreStateMeansUnwritten(s: State, c: Contract, version: nat)
    requires Inv(s) && Bound(s, c) && c.target in s.plans && version <= s.actions[c.actionId].version
    requires Classify(c, s.plans[c.target]) == MutationNotStarted
    ensures UnwrittenAt(s, c.actionId, version)
    ensures forall i :: 0 <= i < |s.log| ==> s.log[i].author != By(c.actionId)
  {
    forall i | 0 <= i < |s.log| ensures s.log[i].author != By(c.actionId) {
      assert AuthoredOk(s, s.log[i]);
    }
  }

  lemma PostStateMeansLanded(s: State, c: Contract)
    requires Inv(s) && Bound(s, c) && c.target in s.plans
    requires Classify(c, s.plans[c.target]) == MutationSucceeded
    ensures Landed(s, s.actions[c.actionId], c.fields)
  {
    assert StoredOk(s.plans, s.log, c.target);
    assert Logged(s.log, c.target, s.plans[c.target]);
  }

  lemma ReconcileObserves(s: State, pc: Pc)
    requires Inv(s) && PcOk(s, pc) && pc.RcAsked?
    ensures StepReconcile(s, pc).state == s && PcOk(s, StepReconcile(s, pc).pc)
  {
    if pc.c.target in s.plans {
      var verdict := Classify(pc.c, s.plans[pc.c.target]);
      if verdict == MutationNotStarted { PreStateMeansUnwritten(s, pc.c, pc.version); }
      if verdict == MutationSucceeded { PostStateMeansLanded(s, pc.c); }
    }
  }

  lemma ReconcileReads(s: State, pc: Pc)
    requires Inv(s) && PcOk(s, pc) && (pc.RcBuilt? || pc.RcAsked?)
    ensures StepReconcile(s, pc).state == s && PcOk(s, StepReconcile(s, pc).pc)
  {
    if pc.RcAsked? { ReconcileObserves(s, pc); }
  }

  lemma ReconcileSettles(s: State, pc: Pc)
    requires Inv(s) && PcOk(s, pc) && pc.RcObserved?
    ensures GoodMove(s, StepReconcile(s, pc))
  {
    var id := pc.c.actionId;
    if pc.verdict == MutationSucceeded {
      ConcludedKeeps(s, id, pc.version, MutationSucceeded, pc.now);
    } else if pc.verdict == MutationNotStarted {
      ReconciledKeeps(s, id, pc.version, MutationNotStarted, pc.now);
    } else { EvolvesRefl(s); }
  }

  // ----- rollback ---------------------------------------------------------

  lemma LeaseRollbackKeeps(s: State, rid: ActionId, leaseId: LeaseId, now: Time)
    requires Inv(s) && rid in s.actions
    ensures Keeps(s, LeaseRollback(s, rid, leaseId, now).state)
  {
    if s.actions[rid].state != SnapshotCaptured { EvolvesRefl(s); }
    else { LeaseKeeps(s, rid, s.actions[rid].version, leaseId, now); }
  }

  lemma BeginRollbackKeeps(s: State, c: Contract, now: Time)
    requires Inv(s) && c.actionId in s.actions
    ensures Keeps(s, BeginRollback(s, c, now).state)
  {
    if s.actions[c.actionId].state != Leased { EvolvesRefl(s); }
    else { BeginKeeps(s, c.actionId, c.actionVersion, c.confirmationId, now); }
  }

  /** What each writing step of a rollback is, and that it takes the caller from
      a doomed place to a doomed place. */
  lemma RollbackStepIs(s: State, pc: Pc, cid: ConfirmationId, leaseId: LeaseId)
    requires pc.RbChecked? ==> pc.rid in s.actions
    requires pc.RbBound? ==> pc.c.actionId in s.actions
    ensures pc.RbChecked? ==>
      var r := LeaseRollback(s, pc.rid, leaseId, pc.now);
      StepRollback(s, pc, cid, leaseId) ==
      Move(r.state, if r.result.Ok? then RbLeased(pc.rid, pc.oid, pc.now, pc.original) else Idle)
    ensures pc.RbAdmitted? ==>
      var r := BindEvidence(s, pc.c.actionId, pc.c);
      StepRollback(s, pc, cid, leaseId) ==
        Move(r.state, if r.result.Ok? then RbBound(pc.c, pc.oid, pc.now, pc.original) else Idle)
    ensures pc.RbBound? ==>
      var r := BeginRollback(s, pc.c, pc.now);
      StepRollback(s, pc, cid, leaseId) ==
        Move(r.state, if r.result.Ok? then RbBegun(pc.c, pc.oid, pc.now, pc.original) else Idle)
  {
  }

  lemma DoomedMove(s: State, m: Move, pc: Pc)
    requires Keeps(s, m.state) && PcOk(s, pc)
    requires m.pc == Idle
          || (pc.RbChecked? && m.pc == RbLeased(pc.rid, pc.oid, pc.now, pc.original))
          || (pc.RbAdmitted? && m.pc == RbBound(pc.c, pc.oid, pc.now, pc.original))
          || (pc.RbBound? && m.pc == RbBegun(pc.c, pc.oid, pc.now, pc.original))
    ensures GoodMove(s, m)
  {
    if m.pc != Idle { PcStays(s, m.state, pc); }
  }

  /** Taking the lease, the evidence and the confirmation is as far as any
      rollback gets: the plan check then turns it away. */
  lemma RollbackWrites(s: State, pc: Pc, cid: ConfirmationId, leaseId: LeaseId)
    requires Inv(s) && PcOk(s, pc) && (pc.RbChecked? || pc.RbAdmitted? || pc.RbBound?)
    ensures GoodMove(s, StepRollback(s, pc, cid, leaseId))
  {
    RollbackStepIs(s, pc, cid, leaseId);
    if pc.RbChecked? { LeaseRollbackKeeps(s, pc.rid, leaseId, pc.now); }
    else if pc.RbAdmitted? { EvidenceKeeps(s, pc.c.actionId, pc.c); }
    else { BeginRollbackKeeps(s, pc.c, pc.now); }
    DoomedMove(s, StepRollback(s, pc, cid, leaseId), pc);
  }

  lemma RollbackAdmits(s: State, pc: Pc, cid: ConfirmationId, leaseId: LeaseId)
    requires PcOk(s, pc) && pc.RbLeased?
    ensures StepRollback(s, pc, cid, leaseId).state == s && PcOk(s, StepRollback(s, pc, cid, leaseId).pc)
  {
  }

  lemma RollbackStops(s: State, pc: Pc, cid: ConfirmationId, leaseId: LeaseId)
    requires PcOk(s, pc) && (pc.RbBegun? || pc.Idle?)
    ensures StepRollback(s, pc, cid, leaseId) == Move(s, Idle)
  {
  }

  lemma RollbackMoves(s: State, pc: Pc, cid: ConfirmationId, leaseId: LeaseId)
    requires Inv(s) && PcOk(s, pc)
    requires pc.RbChecked? || pc.RbAdmitted? || pc.RbBound? || pc.RbLeased? || pc.RbBegun? || pc.Idle?
    ensures GoodMove(s, StepRollback(s, pc, cid, leaseId))
  {
    if pc.RbChecked? || pc.RbAdmitted? || pc.RbBound? { RollbackWrites(s, pc, cid, leaseId); }
    else {
      EvolvesRefl(s);
      if pc.RbLeased? { RollbackAdmits(s, pc, cid, leaseId); } else { RollbackStops(s, pc, cid, leaseId); }
    }
  }

  lemma ExecuteChecks(s: State, pc: Pc)
    requires PcOk(s, pc) && (pc.ExBuilt? || pc.ExBound? || pc.ExGated?)
    ensures StepExecute(s, pc).state == s && PcOk(s, StepExecute(s, pc).pc)
  {
    if pc.ExBuilt? && ValidateWorld(s, pc.c, pc.now).Ok? { WorldCheckMeansLive(s, pc.c, pc.now); }
  }

  lemma ExecuteObserves(s: State, pc: Pc)
    requires Inv(s) && PcOk(s, pc) && (pc.ExBegun? || pc.ExMutated?)
    ensures StepExecute(s, pc).state == s && PcOk(s, StepExecute(s, pc).pc)
  {
    var c := pc.c;
    if pc.ExBegun? && s.actions[c.actionId].state == ExecutedPendingVerification { ResumeMeansLanded(s, c, pc.now); }
    if pc.ExMutated? && c.target in s.plans { FailedReadBackMeansOvertaken(s, c); }
  }

  lemma ExecuteConcludes(s: State, pc: Pc)
    requires Inv(s) && PcOk(s, pc) && (pc.ExObserved? || pc.ExRecorded?)
    ensures GoodMove(s, StepExecute(s, pc))
  {
    if pc.ExObserved? { RecordKeeps(s, pc.c.actionId, pc.version, pc.success, pc.now); }
    else { ReleaseKeeps(s, pc.c.actionId, pc.c.leaseId, pc.c.fencingToken); }
  }

  predicate Executing(pc: Pc) {
    pc.ExBuilt? || pc.ExChecked? || pc.ExBound? || pc.ExGated? || pc.ExReady? || pc.ExBegun? || pc.ExRunning?
    || pc.ExMutated? || pc.ExObserved? || pc.ExRecorded?
  }

  lemma ExecuteMoves(s: State, pc: Pc)
    requires Inv(s) && PcOk(s, pc) && Executing(pc)
    ensures GoodMove(s, StepExecute(s, pc))
  {
    if pc.ExChecked? { ExecuteBinds(s, pc.c, pc.now, pc.seen, pc.version); }
    else if pc.ExReady? { ExecuteBegins(s, pc.c, pc.now, pc.seen, pc.version); }
    else if pc.ExRunning? { ExecuteMutates(s, pc.c, pc.now, pc.version); }
    else if pc.ExObserved? || pc.ExRecorded? { ExecuteConcludes(s, pc); }
    else {
      EvolvesRefl(s);
      if pc.ExBegun? || pc.ExMutated? { ExecuteObserves(s, pc); } else { ExecuteChecks(s, pc); }
    }
  }

  lemma ReconcileMoves(s: State, pc: Pc)
    requires Inv(s) && PcOk(s, pc) && (pc.RcBuilt? || pc.RcAsked? || pc.RcObserved?)
    ensures GoodMove(s, StepReconcile(s, pc))
  {
    if pc.RcObserved? { ReconcileSettles(s, pc); } else { EvolvesRefl(s); ReconcileReads(s, pc); }
  }

  lemma CallerMoves(s: State, pc: Pc, cid: ConfirmationId, leaseId: LeaseId)
    requires Inv(s) && PcOk(s, pc)
    ensures GoodMove(s, StepCaller(s, pc, cid, leaseId))
  {
    if Executing(pc) { ExecuteMoves(s, pc); }
    else if pc.RcBuilt? || pc.RcAsked? || pc.RcObserved? { ReconcileMoves(s, pc); }
    else { RollbackMoves(s, pc, cid, leaseId); }
  }

  // ----- events without a caller -------------------------------------------

  lemma ObservedIsLogged(s: State, t: Target, seen: nat)
    requires Inv(s)
    ensures Observed(s, t, seen).Some? ==>
              Logged(s.log, t, Observed(s, t, seen).value) && Observed(s, t, seen).value.target == t
  {
    if seen < |s.log| { assert WriteOk(s.log[seen]); }
  }

  lemma RegisterRollbackKeeps(s: State, call: Call, original: ActionId, planned: nat, seen: nat)
    requires Inv(s)
    ensures var t := RegisterRollback(s, call, original, planned, seen); Keeps(s, t)
  {
    EvolvesRefl(s);
    if original in s.actions && original in s.decisions {
      var o := s.actions[original];
      var snap := SnapshotFor(s, original);
      if snap.Some? {
        ObservedIsLogged(s, o.target, seen);
        assert ActionOk(s, original);
        var k := call.(request := RollbackRequest(o), seen := Observed(s, o.target, seen));
        if o.operation == UpdateProjectPlan { AuthorizeKeeps(s, k, Some(Refs(original, snap.value.id))); }
      }
    }
  }

  /** Events that create targets or actions, or copy a plan. */
  predicate Creates(e: Event) { e.CreateTarget? || e.AuthorizeRequest? || e.RequestRollback? || e.CapturePlan? }

  /** A rollback has to name what it undoes, so asked for directly it is never
      registered. */
  lemma UnlinkedRollbackIsRefused(s: State, k: Call)
    requires k.request.operation == RollbackProjectPlan
    ensures Authorize(s, k, None).state == s
  {
    if Judge(k).Allowed? {
      var d := Judge(k).decision;
      var planned := Advance(FreshAction(d, None), Planned, Some(d.decidedAt), None);
      if planned.Ok? {
        var waiting := Advance(planned.value, ConfirmationRequired, Some(d.decidedAt), None);
        if waiting.Ok? { assert waiting.value.Fixed() == FreshAction(d, None).Fixed() && !Coherent(d, waiting.value); }
      }
    }
  }

  lemma RequestKeeps(s: State, k: Call, n: nat)
    requires Inv(s)
    ensures Keeps(s, Authorize(s, k.(seen := Observed(s, k.request.target, n)), None).state)
  {
    var q := k.(seen := Observed(s, k.request.target, n));
    ObservedIsLogged(s, k.request.target, n);
    if k.request.operation == UpdateProjectPlan { AuthorizeKeeps(s, q, None); }
    else { UnlinkedRollbackIsRefused(s, q); EvolvesRefl(s); }
  }

  lemma CreationKeeps(s: State, e: Event)
    requires Inv(s) && Creates(e)
    ensures Keeps(s, Effect(s, e))
  {
    EvolvesRefl(s);
    if e.CreateTarget? {
      var p := NewPlan(e.target, e.env, e.title, e.objective, e.now, e.enabled);
      if p.Ok? { CreateKeeps(s, p.value); }
    } else if e.AuthorizeRequest? {
      RequestKeeps(s, e.call, e.seen);
    } else if e.RequestRollback? {
      RegisterRollbackKeeps(s, e.call, e.original, e.planned, e.seen);
    } else if e.seen < |s.log| {
      assert WriteOk(s.log[e.seen]);
      CaptureKeeps(s, e.id, e.version, s.log[e.seen].after, e.sid, e.now);
    }
  }

  /** Events that advance one action through a single composite. */
  predicate Advances(e: Event) {
    e.FlagRollback? || e.ConfirmAction? || e.GrantLease? || e.Recover?
  }

  lemma AdvanceEventKeeps(s: State, e: Event)
    requires Inv(s) && Advances(e)
    ensures Keeps(s, Effect(s, e))
  {
    if e.FlagRollback? { FlagKeeps(s, e.original, e.version, e.now); }
    else if e.ConfirmAction? { ConfirmKeeps(s, e.cid, e.version, e.actor, e.now); }
    else if e.GrantLease? { LeaseKeeps(s, e.id, e.version, e.leaseId, e.now); }
    else { EvolvesRefl(s); ReconcileAdvanceKeeps(s, e.id, e.version, 0, e.now); }
  }

  lemma EffectKeeps(s: State, e: Event)
    requires Inv(s)
    ensures Keeps(s, Effect(s, e))
  {
    if Creates(e) { CreationKeeps(s, e); }
    else if Advances(e) { AdvanceEventKeeps(s, e); }
    else if e.AskConfirmation? { AskKeeps(s, e.id, e.pending, e.now); }
    else if e.ReportOutcome? { OutcomeKeeps(s, e.id, e.version, e.outcome); }
    else if e.NoteEvidence? { EvidenceKeeps(s, e.id, e.contract); }
    else if e.ChangeSwitch? { SwitchKeeps(s, e.change); }
    else { EvolvesRefl(s); }
  }

  // ----- whole runs -------------------------------------------------------

  ghost predicate SysInv(x: Sys) {
    Inv(x.st) && forall t {:trigger PcOk(x.st, x.threads[t])} :: t in x.threads ==> PcOk(x.st, x.threads[t])
  }

  /** Callers other than `t` keep what they know. */
  lemma ThreadsStay(x: Sys, y: Sys, t: nat)
    requires SysInv(x) && Evolves(x.st, y.st) && Inv(y.st)
    requires y.threads == x.threads
             || (t in y.threads && y.threads == x.threads[t := y.threads[t]] && PcOk(y.st, y.threads[t]))
    ensures SysInv(y)
  {
    forall u | u in y.threads ensures PcOk(y.st, y.threads[u]) {
      if u in x.threads && y.threads[u] == x.threads[u] {
        assert PcOk(x.st, x.threads[u]);
        PcStays(x.st, y.st, x.threads[u]);
      }
    }
  }

  lemma ExecuteStartsBound(s: State, id: ActionId, cid: ConfirmationId, now: Time)
    requires Inv(s) && ContractForAction(s, id, cid, now).Ok?
    ensures Bound(s, ContractForAction(s, id, cid, now).value)
  {
    assert ActionOk(s, id);
  }

  lemma ReconcileStartsBound(s: State, id: ActionId, cid: ConfirmationId)
    requires Inv(s) && ContractForReconcile(s, id, cid).Ok?
    ensures Bound(s, ContractForReconcile(s, id, cid).value)
  {
    assert ActionOk(s, id);
  }

  lemma RollbackStartsDoomed(s: State, rid: ActionId, oid: ActionId, now: Time)
    requires Inv(s) && RollbackChecks(s, rid, oid, now).Ok?
    ensures Doomed(s, rid, oid, s.actions[oid])
  {
    assert ActionOk(s, rid) && ActionOk(s, oid);
  }

  /** Starting a caller gives it a contract it is entitled to. */
  lemma StartKeeps(x: Sys, t: nat, pc: Pc)
    requires SysInv(x) && PcOk(x.st, pc)
    ensures SysInv(x.(threads := x.threads[t := pc]))
  {
    EvolvesRefl(x.st);
    ThreadsStay(x, x.(threads := x.threads[t := pc]), t);
  }

  lemma StartExecuteKeeps(x: Sys, t: nat, id: ActionId, cid: ConfirmationId, now: Time)
    requires SysInv(x)
    ensures SysInv(Step(x, StartExecute(t, id, cid, now)))
  {
    if ContractForAction(x.st, id, cid, now).Ok? {
      ExecuteStartsBound(x.st, id, cid, now);
      StartKeeps(x, t, ExBuilt(ContractForAction(x.st, id, cid, now).value, now));
    }
  }

  lemma StartReconcileKeeps(x: Sys, t: nat, id: ActionId, cid: ConfirmationId, now: Time)
    requires SysInv(x)
    ensures SysInv(Step(x, StartReconcile(t, id, cid, now)))
  {
    if ContractForReconcile(x.st, id, cid).Ok? {
      ReconcileStartsBound(x.st, id, cid);
      StartKeeps(x, t, RcBuilt(ContractForReconcile(x.st, id, cid).value, now));
    }
  }

  lemma StartRollbackKeeps(x: Sys, t: nat, rid: ActionId, oid: ActionId, now: Time)
    requires SysInv(x)
    ensures SysInv(Step(x, StartRollback(t, rid, oid, now)))
  {
    if RollbackChecks(x.st, rid, oid, now).Ok? {
      RollbackStartsDoomed(x.st, rid, oid, now);
      StartKeeps(x, t, RbChecked(rid, oid, now, x.st.actions[oid]));
    }
  }

  lemma ContinueKeeps(x: Sys, t: nat, cid: ConfirmationId, leaseId: LeaseId)
    requires SysInv(x)
    ensures var y := Step(x, Continue(t, cid, leaseId)); SysInv(y) && Evolves(x.st, y.st)
  {
    assert t in x.threads ==> PcOk(x.st, x.threads[t]);
    CallerMoves(x.st, Pc0(x, t), cid, leaseId);
    ThreadsStay(x, Step(x, Continue(t, cid, leaseId)), t);
  }

  /** One event of any caller keeps everything every caller relies on. */
  lemma StepKeeps(x: Sys, e: Event)
    requires SysInv(x)
    ensures SysInv(Step(x, e)) && Evolves(x.st, Step(x, e).st)
  {
    var y := Step(x, e);
    EvolvesRefl(x.st);
    if e.StartExecute? { StartExecuteKeeps(x, e.t, e.id, e.cid, e.now); }
    else if e.StartReconcile? { StartReconcileKeeps(x, e.t, e.id, e.cid, e.now); }
    else if e.StartRollback? { StartRollbackKeeps(x, e.t, e.rid, e.oid, e.now); }
    else if e.Crash? { StartKeeps(x, e.t, Idle); }
    else if e.Continue? { ContinueKeeps(x, e.t, e.cid, e.leaseId); }
    else {
      EffectKeeps(x.st, e);
      ThreadsStay(x, y, 0);
    }
  }

  lemma InitialOk(maxRecords: nat, now: Time)
    ensures SysInv(Start(maxRecords, now))
  {
    var s := Start(maxRecords, now).st;
    assert forall t :: StoredOk(s.plans, s.log, t);
  }

  /** Every run from the empty store stays within the invariant, and every
      state of it evolves from every earlier one. */
  lemma {:induction false} RunKeeps(x: Sys, es: seq<Event>)
    requires SysInv(x)
    ensures SysInv(Run(x, es)) && Evolves(x.st, Run(x, es).st)
    decreases |es|
  {
    if es == [] { EvolvesRefl(x.st); return; }
    var before := es[..|es| - 1];
    RunKeeps(x, before);
    StepKeeps(Run(x, before), es[|es| - 1]);
    EvolvesTrans(x.st, Run(x, before).st, Run(x, es).st);
  }

  /** A run can be cut anywhere. */
  lemma {:induction false} RunSplits(x: Sys, es: seq<Event>, fs: seq<Event>)
    ensures Run(x, es + fs) == Run(Run(x, es), fs)
    decreases |fs|
  {
    if fs == [] { assert es + fs == es; return; }
    assert (es + fs)[..|es + fs| - 1] == es + fs[..|fs| - 1];
    RunSplits(x, es, fs[..|fs| - 1]);
  }
}
