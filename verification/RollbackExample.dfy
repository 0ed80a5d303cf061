/** When a rollback does succeed, and a sequence of repository calls that leads
    to such a state, so that the undo theorem of `Alone` speaks about something. */
module RollbackExample {
  import opened Types
  import opened Lifecycle
  import opened Plans
  import opened KillSwitch
  import opened Store
  import opened Gate
  import opened Executor
  import opened Service
  import opened Preservation
  import opened Alone
  import G = Progress
  import C = Commands
  import N = Conditions

  // ----- a sufficient condition ----------------------------------------------------

  /** The original waits to be undone and nothing happened to its target since. */
  predicate Waiting(s: State, oid: ActionId, snap: Snapshot, now: Time) {
    && oid in s.actions && s.actions[oid].state == RollbackRequested && s.actions[oid].approver.Some?
    && now < s.actions[oid].expiresAt && SnapshotFor(s, oid) == Some(snap)
    && s.actions[oid].target in s.plans
    && s.plans[s.actions[oid].target].revision == s.actions[oid].planRevision + 1
    && Acceptable(s.plans[s.actions[oid].target], RestoreFields(snap))
  }

  /** The rollback is authorized for the plan as it stands and captured, and has
      not been leased. */
  predicate Prepared(s: State, rid: ActionId, oid: ActionId, now: Time) {
    && rid in s.actions && rid != oid && rid !in s.leases && rid !in s.evidence && rid in s.decisions
    && var a := s.actions[rid];
       && a.id == rid && a.rollbackOf == Some(oid) && a.operation == RollbackProjectPlan && a.state == SnapshotCaptured
       && a.environment == Staging && a.protocol == Mc616d2V1 && a.approver.Some? && now < a.expiresAt
       && a.target in s.plans
       && s.plans[a.target] == s.decisions[rid].identity.targetDigest && s.plans[a.target].target == a.target
       && s.plans[a.target].revision == a.planRevision >= 1
       && SnapshotFor(s, rid).Some? && SnapshotFor(s, rid).value.revision == a.planRevision
       && SnapshotFor(s, rid).value.target == a.target
  }

  /** It is confirmed too, and staging is open. */
  predicate Poised(s: State, rid: ActionId, oid: ActionId, cid: ConfirmationId, now: Time) {
    && Prepared(s, rid, oid, now)
    && cid in s.bindings && s.bindings[cid].actionId == rid && s.bindings[cid].state == BindingConfirmed
    && now < s.bindings[cid].expiresAt
    && SwitchFor(s.switches, Staging).state == Disengaged && SwitchFor(s.switches, Staging).epoch >= 1
  }

  predicate Undoable(s: State, rid: ActionId, oid: ActionId, cid: ConfirmationId, snap: Snapshot, now: Time) {
    Poised(s, rid, oid, cid, now) && Waiting(s, oid, snap, now) && s.actions[rid].target == s.actions[oid].target
  }

  // ----- it gets going ----------------------------------------------------------------

  function WithLease(s: State, rid: ActionId, lid: LeaseId, now: Time): State
    requires rid in s.actions
  {
    var a := s.actions[rid];
    s.(actions := s.actions[rid := a.(state := Leased, version := a.version + 1)],
       leases := s.leases[rid := Lease(lid, rid, 1, true, now, now + LEASE_TTL, a.version + 1)])
  }

  lemma TakesLease(s: State, rid: ActionId, oid: ActionId, cid: ConfirmationId, lid: LeaseId, now: Time)
    requires Poised(s, rid, oid, cid, now)
    ensures LeaseRollback(s, rid, lid, now) == Reply(WithLease(s, rid, lid, now), Ok(()))
  {
  }

  function ContractFor(s: State, rid: ActionId, cid: ConfirmationId, snap: Snapshot, lid: LeaseId): Contract
    requires rid in s.actions && rid in s.decisions
  {
    var a := s.actions[rid];
    Contract(rid, a.version + 1, a.target, a.environment, a.planId, a.planRevision,
             s.decisions[rid].identity.targetDigest,
             RestoreFields(snap), snap.id, cid, a.policyVersion, SwitchFor(s.switches, a.environment).epoch,
             lid, 1, a.expiresAt, CAPABILITY_VERSION)
  }

  lemma BuildsContract(s: State, rid: ActionId, oid: ActionId, cid: ConfirmationId, snap: Snapshot, lid: LeaseId,
                       now: Time)
    requires Poised(s, rid, oid, cid, now) && SnapshotFor(s, oid) == Some(snap)
    ensures ContractForRollback(WithLease(s, rid, lid, now), rid, cid, now) == Ok(ContractFor(s, rid, cid, snap, lid))
  {
    assert Title in RestoreFields(snap);
  }

  lemma PassesGate(s: State, rid: ActionId, oid: ActionId, cid: ConfirmationId, snap: Snapshot, lid: LeaseId, now: Time)
    requires Poised(s, rid, oid, cid, now)
    ensures var c, l := ContractFor(s, rid, cid, snap, lid), WithLease(s, rid, lid, now);
            Evaluate(l, c, now) == GateAllowed && ValidateLease(l, c, now).Ok?
  {
    var c, l := ContractFor(s, rid, cid, snap, lid), WithLease(s, rid, lid, now);
    assert SnapshotFor(l, rid) == SnapshotFor(s, rid);
    assert EvaluateEvidence(l, c, now) == GateAllowed;
  }

  lemma Starts(s: State, rid: ActionId, oid: ActionId, cid: ConfirmationId, snap: Snapshot, lid: LeaseId, now: Time)
    requires Poised(s, rid, oid, cid, now)
    ensures var c, l := ContractFor(s, rid, cid, snap, lid), WithLease(s, rid, lid, now);
            var u := BindEvidence(l, rid, c);
            u.result.Ok? && BeginRollback(u.state, c, now) == Reply(Begun(l, c), Ok(()))
  {
    var c, l := ContractFor(s, rid, cid, snap, lid), WithLease(s, rid, lid, now);
    BeginSucceeds(l, c, now);
  }

  lemma Opens(s: State, rid: ActionId, oid: ActionId, cid: ConfirmationId, snap: Snapshot, lid: LeaseId, now: Time)
    requires Poised(s, rid, oid, cid, now) && SnapshotFor(s, oid) == Some(snap)
    ensures var c, l := ContractFor(s, rid, cid, snap, lid), WithLease(s, rid, lid, now);
            OpenRollback(s, rid, cid, lid, now) == Reply(Begun(l, c), Ok(c))
  {
    TakesLease(s, rid, oid, cid, lid, now);
    BuildsContract(s, rid, oid, cid, snap, lid, now);
    PassesGate(s, rid, oid, cid, snap, lid, now);
    Starts(s, rid, oid, cid, snap, lid, now);
  }

  // ----- it restores and concludes -------------------------------------------------------

  /** What the restore needs of the state it starts in. */
  predicate Ready(b: State, rid: ActionId, oid: ActionId, snap: Snapshot, now: Time) {
    && rid in b.actions && oid in b.actions && rid != oid
    && b.actions[rid].state == Running && b.actions[rid].approver.Some? && now < b.actions[rid].expiresAt
    && b.actions[oid].state == RollbackRequested && b.actions[oid].approver.Some? && now < b.actions[oid].expiresAt
    && b.actions[rid].target in b.plans && b.actions[rid].environment == Staging
    && var p := b.plans[b.actions[rid].target];
       && p.target == b.actions[rid].target && p.revision == b.actions[oid].planRevision + 1
       && Acceptable(p, RestoreFields(snap))
  }

  lemma Restores(b: State, rid: ActionId, oid: ActionId, snap: Snapshot, now: Time)
    requires Ready(b, rid, oid, snap, now)
    ensures var r := Restore(b, rid, b.actions[oid], RestoreFields(snap), now);
            && r.result == Ok(b.actions[rid].version + 1)
            && rid in r.state.actions && oid in r.state.actions && r.state.actions[oid] == b.actions[oid]
            && r.state.actions[rid] ==
               b.actions[rid].(state := ExecutedPendingVerification, version := b.actions[rid].version + 1)
            && b.actions[rid].target in r.state.plans
            && Update(b.plans[b.actions[rid].target], b.plans[b.actions[rid].target].revision, RestoreFields(snap), now)
               == Ok(r.state.plans[b.actions[rid].target])
  {
    var a, p := b.actions[rid], b.plans[b.actions[rid].target];
    MutateDid(b, rid, a.version, p.revision, RestoreFields(snap), now);
    assert UpdatePlan(b, rid, a.target, p.revision, RestoreFields(snap), now).result.Ok?;
    assert Advance(a, ExecutedPendingVerification, Some(now), Some(a.requester)).Ok?;
  }

  lemma Records(m: State, rid: ActionId, v: nat, now: Time)
    requires rid in m.actions && m.actions[rid].state == ExecutedPendingVerification && m.actions[rid].version == v
    requires m.actions[rid].approver.Some? && now < m.actions[rid].expiresAt
    ensures var r := RecordVerification(m, rid, v, true, now);
            r.result.Ok? && rid in r.state.actions && r.state.actions == m.actions[rid := r.state.actions[rid]]
  {
  }

  lemma Judges(s: State, oid: ActionId, now: Time)
    requires oid in s.actions && s.actions[oid].state == RollbackRequested && s.actions[oid].approver.Some?
    requires now < s.actions[oid].expiresAt
    ensures AdvanceRollback(s, oid, s.actions[oid].version, {RollbackRequested}, RolledBack, now).result.Ok?
  {
  }

  lemma Concludes(m: State, c: Contract, oid: ActionId, snap: Snapshot, now: Time, p: ProjectPlan)
    requires c.actionId in m.actions && oid in m.actions && oid != c.actionId
    requires m.actions[c.actionId].state == ExecutedPendingVerification
    requires m.actions[c.actionId].approver.Some? && now < m.actions[c.actionId].expiresAt
    requires m.actions[oid].state == RollbackRequested && m.actions[oid].approver.Some?
             && now < m.actions[oid].expiresAt
    requires m.actions[c.actionId].target in m.plans && m.actions[c.actionId].environment == Staging
    requires p.target == m.actions[c.actionId].target
             && Update(p, p.revision, RestoreFields(snap), now) == Ok(m.plans[m.actions[c.actionId].target])
    ensures ConcludeRollback(m, c, oid, m.actions[oid].version, snap, m.actions[c.actionId].version, now).result
            == Ok(Done(RollbackSucceeded, RolledBack))
  {
    var a := m.actions[c.actionId];
    assert RestoredOk(a, snap, m.plans[a.target]);
    Records(m, c.actionId, a.version, now);
    Judges(RecordVerification(m, c.actionId, a.version, true, now).state, oid, now);
  }

  lemma Finishes(b: State, c: Contract, oid: ActionId, snap: Snapshot, now: Time)
    requires Ready(b, c.actionId, oid, snap, now) && SnapshotFor(b, oid) == Some(snap)
    ensures FinishRollback(b, c, oid, b.actions[oid], now).result == Ok(Done(RollbackSucceeded, RolledBack))
  {
    Restores(b, c.actionId, oid, snap, now);
    var m := Restore(b, c.actionId, b.actions[oid], RestoreFields(snap), now).state;
    Concludes(m, c, oid, snap, now, b.plans[b.actions[c.actionId].target]);
  }

  lemma BegunIsReady(s: State, rid: ActionId, oid: ActionId, cid: ConfirmationId, snap: Snapshot, lid: LeaseId,
                     now: Time)
    requires Undoable(s, rid, oid, cid, snap, now)
    ensures var b := Begun(WithLease(s, rid, lid, now), ContractFor(s, rid, cid, snap, lid));
            Ready(b, rid, oid, snap, now) && SnapshotFor(b, oid) == Some(snap) && b.actions[oid] == s.actions[oid]
  {
  }

  /** A rollback of an action that waits to be undone, on a target nothing else
      happened to, succeeds. */
  lemma UndoableSucceeds(s: State, rid: ActionId, oid: ActionId, cid: ConfirmationId, snap: Snapshot, lid: LeaseId,
                         now: Time)
    requires Undoable(s, rid, oid, cid, snap, now)
    ensures ExecuteRollback(s, rid, oid, cid, lid, now).result == Ok(Done(RollbackSucceeded, RolledBack))
  {
    Opens(s, rid, oid, cid, snap, lid, now);
    BegunIsReady(s, rid, oid, cid, snap, lid, now);
    PassesChecks(s, rid, oid, cid, snap, now);
    var c := ContractFor(s, rid, cid, snap, lid);
    var b := Begun(WithLease(s, rid, lid, now), c);
    Finishes(b, c, oid, snap, now);
    Follows(s, rid, oid, cid, lid, now, b, c);
  }

  lemma PassesChecks(s: State, rid: ActionId, oid: ActionId, cid: ConfirmationId, snap: Snapshot, now: Time)
    requires Undoable(s, rid, oid, cid, snap, now)
    ensures RollbackChecks(s, rid, oid, now).Ok?
  {
  }

  lemma Follows(s: State, rid: ActionId, oid: ActionId, cid: ConfirmationId, lid: LeaseId, now: Time, b: State,
                c: Contract)
    requires RollbackChecks(s, rid, oid, now).Ok? && OpenRollback(s, rid, cid, lid, now) == Reply(b, Ok(c))
    ensures ExecuteRollback(s, rid, oid, cid, lid, now) == FinishRollback(b, c, oid, s.actions[oid], now)
  {
  }

  // ----- and only then -------------------------------------------------------------------

  /** What the checks and the lease establish. */
  predicate StartFacts(s: State, rid: ActionId, oid: ActionId, now: Time) {
    && rid in s.actions && oid in s.actions && s.actions[rid].state == SnapshotCaptured
    && var a := s.actions[rid];
       && a.rollbackOf == Some(oid) && a.operation == RollbackProjectPlan && a.environment == Staging
       && now < a.expiresAt && now < s.actions[oid].expiresAt && a.approver.Some?
       && SwitchFor(s.switches, Staging).state == Disengaged
  }

  lemma StartedNeeds(s: State, rid: ActionId, oid: ActionId, lid: LeaseId, now: Time)
    requires RollbackChecks(s, rid, oid, now).Ok? && s.actions[rid].state == SnapshotCaptured
    requires LeaseRollback(s, rid, lid, now).result.Ok? && rid !in s.leases
    ensures StartFacts(s, rid, oid, now) && LeaseRollback(s, rid, lid, now).state == WithLease(s, rid, lid, now)
  {
    N.LeasesExactly(s, rid, s.actions[rid].version, lid, now);
  }

  /** What the contract, the gate and the start of execution establish. */
  predicate AdmitFacts(s: State, rid: ActionId, cid: ConfirmationId, now: Time) {
    && rid in s.actions && rid in s.decisions
    && var a := s.actions[rid];
       && cid in s.bindings && s.bindings[cid].actionId == rid && now < s.bindings[cid].expiresAt
       && a.protocol == Mc616d2V1 && a.planRevision >= 1 && SwitchFor(s.switches, a.environment).epoch >= 1
       && a.target in s.plans && s.plans[a.target] == s.decisions[rid].identity.targetDigest
       && s.plans[a.target].revision == a.planRevision
       && SnapshotFor(s, rid).Some? && SnapshotFor(s, rid).value.revision == a.planRevision
       && SnapshotFor(s, rid).value.target == a.target
  }

  lemma AdmittedNeeds(l: State, rid: ActionId, cid: ConfirmationId, now: Time)
    requires rid in l.actions && AdmitRollback(l, rid, cid, now).Ok?
    ensures AdmitFacts(l, rid, cid, now) && AdmitRollback(l, rid, cid, now).value.confirmationId == cid
  {
    var c := AdmitRollback(l, rid, cid, now).value;
    assert EvaluateEvidence(l, c, now) == GateAllowed;
  }

  lemma AdmitFactsBefore(s: State, rid: ActionId, cid: ConfirmationId, lid: LeaseId, now: Time)
    requires rid in s.actions && AdmitFacts(WithLease(s, rid, lid, now), rid, cid, now)
    ensures AdmitFacts(s, rid, cid, now)
  {
  }

  lemma BegunNeeds(u: State, c: Contract, now: Time)
    requires c.actionId in u.actions && u.actions[c.actionId].state == Leased && BeginRollback(u, c, now).result.Ok?
    ensures c.confirmationId in u.bindings && u.bindings[c.confirmationId].state == BindingConfirmed
  {
  }

  lemma RestoredNeeds(b: State, rid: ActionId, original: Action, fields: Fields, now: Time)
    requires rid in b.actions && b.actions[rid].state == Running && Restore(b, rid, original, fields, now).result.Ok?
    ensures var x := b.actions[rid].target;
            x in b.plans && b.plans[x].revision == original.planRevision + 1 && Acceptable(b.plans[x], fields)
  {
  }

  lemma VerdictNeeds(s: State, oid: ActionId, v: nat, now: Time)
    requires AdvanceRollback(s, oid, v, {RollbackRequested}, RolledBack, now).result.Ok?
    ensures oid in s.actions && s.actions[oid].state == RollbackRequested && s.actions[oid].approver.Some?
            && now < s.actions[oid].expiresAt
  {
  }

  lemma ConcludedNeeds(m: State, c: Contract, oid: ActionId, v: nat, snap: Snapshot, version: nat, now: Time)
    requires c.actionId in m.actions && oid in m.actions && oid != c.actionId
    requires ConcludeRollback(m, c, oid, v, snap, version, now).result == Ok(Done(RollbackSucceeded, RolledBack))
    ensures m.actions[oid].state == RollbackRequested && m.actions[oid].approver.Some? && now < m.actions[oid].expiresAt
  {
    ConcludeSplits(m, c, oid, v, snap, version, now);
    RecordDid(m, c.actionId, version, true, now);
    VerdictNeeds(RecordVerification(m, c.actionId, version, true, now).state, oid, v, now);
  }

  /** From a state the undo theorem covers, a captured rollback to which no
      contract was bound succeeds if and only if it can be undone: it is confirmed,
      authorized for the plan as it stands and in time, staging is open, and its
      original waits for it, one revision behind. */
  lemma UndoableExactly(s: State, rid: ActionId, oid: ActionId, cid: ConfirmationId, lid: LeaseId, now: Time)
    requires Orderly(s) && rid in s.actions && s.actions[rid].state == SnapshotCaptured && rid !in s.evidence
    ensures ExecuteRollback(s, rid, oid, cid, lid, now).result == Ok(Done(RollbackSucceeded, RolledBack)) <==>
            SnapshotFor(s, oid).Some? && Undoable(s, rid, oid, cid, SnapshotFor(s, oid).value, now)
  {
    if ExecuteRollback(s, rid, oid, cid, lid, now).result == Ok(Done(RollbackSucceeded, RolledBack)) {
      SuccessNeeds(s, rid, oid, cid, lid, now);
    }
    if SnapshotFor(s, oid).Some? && Undoable(s, rid, oid, cid, SnapshotFor(s, oid).value, now) {
      UndoableSucceeds(s, rid, oid, cid, SnapshotFor(s, oid).value, lid, now);
    }
  }

  /** The stages of a rollback that succeeds. */
  lemma SuccessSplits(s: State, rid: ActionId, oid: ActionId, cid: ConfirmationId, lid: LeaseId, now: Time)
    requires ExecuteRollback(s, rid, oid, cid, lid, now).result == Ok(Done(RollbackSucceeded, RolledBack))
    ensures RollbackChecks(s, rid, oid, now).Ok? && OpenRollback(s, rid, cid, lid, now).result.Ok?
    ensures var b, c := OpenRollback(s, rid, cid, lid, now).state, OpenRollback(s, rid, cid, lid, now).result.value;
            && c.actionId == rid && SnapshotFor(b, oid).Some?
            && var snap := SnapshotFor(b, oid).value;
               var m := Restore(b, rid, s.actions[oid], RestoreFields(snap), now);
               && m.result.Ok?
               && ConcludeRollback(m.state, c, oid, s.actions[oid].version, snap, m.result.value, now).result
                  == Ok(Done(RollbackSucceeded, RolledBack))
  {
  }

  /** What the restore and the verdict establish. */
  predicate FinishFacts(s: State, rid: ActionId, oid: ActionId, now: Time) {
    && rid in s.actions && oid in s.actions && SnapshotFor(s, oid).Some?
    && s.actions[oid].state == RollbackRequested && s.actions[oid].approver.Some? && now < s.actions[oid].expiresAt
    && var x := s.actions[rid].target;
       && x in s.plans && s.plans[x].revision == s.actions[oid].planRevision + 1
       && Acceptable(s.plans[x], RestoreFields(SnapshotFor(s, oid).value))
  }

  lemma FactsMakeUndoable(s: State, rid: ActionId, oid: ActionId, cid: ConfirmationId, now: Time)
    requires StartFacts(s, rid, oid, now) && AdmitFacts(s, rid, cid, now) && FinishFacts(s, rid, oid, now)
    requires RecordOk(s, rid) && s.bindings[cid].state == BindingConfirmed && rid !in s.evidence
    requires forall t :: t in s.plans ==> s.plans[t].target == t
    ensures Undoable(s, rid, oid, cid, SnapshotFor(s, oid).value, now)
  {
  }

  /** The start of a rollback that succeeds. */
  lemma SuccessStarts(s: State, rid: ActionId, oid: ActionId, cid: ConfirmationId, lid: LeaseId, now: Time)
    requires RollbackChecks(s, rid, oid, now).Ok? && OpenRollback(s, rid, cid, lid, now).result.Ok?
    requires RecordOk(s, rid) && s.actions[rid].state == SnapshotCaptured
    ensures StartFacts(s, rid, oid, now) && AdmitFacts(s, rid, cid, now) && s.bindings[cid].state == BindingConfirmed
  {
    OpenSplits(s, rid, cid, lid, now);
    StartedNeeds(s, rid, oid, lid, now);
    var l, c := WithLease(s, rid, lid, now), OpenRollback(s, rid, cid, lid, now).result.value;
    AdmittedNeeds(l, rid, cid, now);
    AdmitFactsBefore(s, rid, cid, lid, now);
    BegunNeeds(BindEvidence(l, rid, c).state, c, now);
  }

  lemma SuccessNeeds(s: State, rid: ActionId, oid: ActionId, cid: ConfirmationId, lid: LeaseId, now: Time)
    requires Orderly(s) && rid in s.actions && s.actions[rid].state == SnapshotCaptured && rid !in s.evidence
    requires ExecuteRollback(s, rid, oid, cid, lid, now).result == Ok(Done(RollbackSucceeded, RolledBack))
    ensures SnapshotFor(s, oid).Some? && Undoable(s, rid, oid, cid, SnapshotFor(s, oid).value, now)
  {
    SuccessSplits(s, rid, oid, cid, lid, now);
    assert RecordOk(s, rid);
    SuccessStarts(s, rid, oid, cid, lid, now);
    OpenedRollback(s, rid, cid, lid, now);
    var started := OpenRollback(s, rid, cid, lid, now);
    FinishNeeds(s, started.state, started.result.value, rid, oid, now);
    FactsMakeUndoable(s, rid, oid, cid, now);
  }

  lemma FinishNeeds(s: State, b: State, c: Contract, rid: ActionId, oid: ActionId, now: Time)
    requires Started(s, b, rid, now) && c.actionId == rid && oid in s.actions && oid != rid
    requires SnapshotFor(b, oid).Some? && now < b.actions[rid].expiresAt
    requires var snap := SnapshotFor(b, oid).value;
             var m := Restore(b, rid, s.actions[oid], RestoreFields(snap), now);
             && m.result.Ok?
             && ConcludeRollback(m.state, c, oid, s.actions[oid].version, snap, m.result.value, now).result
                == Ok(Done(RollbackSucceeded, RolledBack))
    ensures FinishFacts(s, rid, oid, now)
  {
    var snap := SnapshotFor(b, oid).value;
    RestoredNeeds(b, rid, s.actions[oid], RestoreFields(snap), now);
    RestoredWrites(b, rid, s.actions[oid], snap, now);
    var m := Restore(b, rid, s.actions[oid], RestoreFields(snap), now);
    ConcludedNeeds(m.state, c, oid, s.actions[oid].version, snap, m.result.value, now);
  }

  // ----- repository calls that lead there -------------------------------------------------

  /** Some sequence of repository calls on an empty store leaves this state. */
  ghost predicate Produced(s: State) { exists cs :: C.DoAll(Initial(9, 0), cs) == s }

  lemma ProducesNext(s: State, c: C.Command, t: State)
    requires Produced(s) && C.Do(s, c) == t
    ensures Produced(t)
  {
    var cs :| C.DoAll(Initial(9, 0), cs) == s;
    assert (cs + [c])[..|cs|] == cs;
    assert C.DoAll(Initial(9, 0), cs + [c]) == t;
  }

  lemma ProducesOpening()
    ensures Produced(G.Opening())
  {
    assert C.DoAll(Initial(9, 0), []) == Initial(9, 0);
    StagingOpens();
    ProducesNext(Initial(9, 0), C.DoChangeSwitch(Change(false, Staging, 0)), G.Opened());
    TargetIsCreated();
    ProducesNext(G.Opened(), C.DoCreatePlan(7, Staging, "t", "o", 0, true), G.Opening());
  }

  lemma StagingOpens()
    ensures C.Do(Initial(9, 0), C.DoChangeSwitch(Change(false, Staging, 0))) == G.Opened()
  {
  }

  lemma TargetIsCreated()
    ensures C.Do(G.Opened(), C.DoCreatePlan(7, Staging, "t", "o", 0, true)) == G.Opening()
  {
    assert NewPlan(7, Staging, "t", "o", 0, true) == Ok(G.FirstPlan);
  }

  lemma AfterRegister(s: State, d: Decision, a: Action, t: State)
    requires Produced(s) && RegisterAction(s, d, a).state == t
    ensures Produced(t)
  {
    ProducesNext(s, C.DoRegister(d, a), t);
  }

  lemma AfterConfirm(s: State, b: Binding, id: ActionId, version: nat, actor: Subject, now: Time, t: State)
    requires Produced(s) && ConfirmAndAdvance(s, b, id, version, actor, now).state == t
    ensures Produced(t)
  {
    ProducesNext(s, C.DoConfirm(b, id, version, actor, now), t);
  }

  lemma AfterCapture(s: State, snap: Snapshot, id: ActionId, version: nat, now: Time, t: State)
    requires Produced(s) && CaptureSnapshot(s, snap, id, version, now).state == t
    ensures Produced(t)
  {
    ProducesNext(s, C.DoCapture(snap, id, version, now), t);
  }

  lemma AfterLease(s: State, id: ActionId, version: nat, lid: LeaseId, now: Time, t: State)
    requires Produced(s) && AcquireLease(s, id, version, lid, now).state == t
    ensures Produced(t)
  {
    ProducesNext(s, C.DoAcquireLease(id, version, lid, now), t);
  }

  lemma AfterEvidence(s: State, id: ActionId, c: Contract, t: State)
    requires Produced(s) && BindEvidence(s, id, c).state == t
    ensures Produced(t)
  {
    ProducesNext(s, C.DoBindEvidence(id, c), t);
  }

  lemma AfterBegin(s: State, id: ActionId, version: nat, cid: ConfirmationId, now: Time, t: State)
    requires Produced(s) && BeginExecution(s, id, version, cid, now).state == t
    ensures Produced(t)
  {
    ProducesNext(s, C.DoBegin(id, version, cid, now), t);
  }

  lemma AfterMutate(s: State, id: ActionId, version: nat, revision: nat, fields: Fields, now: Time, t: State)
    requires Produced(s) && MutatePlan(s, id, version, revision, fields, now).state == t
    ensures Produced(t)
  {
    ProducesNext(s, C.DoMutate(id, version, revision, fields, now), t);
  }

  lemma AfterRecord(s: State, id: ActionId, version: nat, success: bool, now: Time, t: State)
    requires Produced(s) && RecordVerification(s, id, version, success, now).state == t
    ensures Produced(t)
  {
    ProducesNext(s, C.DoRecord(id, version, success, now), t);
  }

  lemma AfterFlag(s: State, id: ActionId, version: nat, now: Time, t: State)
    requires Produced(s) && AdvanceRollback(s, id, version, {VerificationFailed}, RollbackRequested, now).state == t
    ensures Produced(t)
  {
    ProducesNext(s, C.DoAdvanceRollback(id, version, {VerificationFailed}, RollbackRequested, now), t);
  }

  lemma RegisterCall(s: State, k: Call, now: Time)
    requires G.Fresh(s, k, now)
    ensures RegisterAction(s, G.DecisionOf(s, k, now), G.ActionAt(s, k, now, ConfirmationRequired, 2)).state ==
            G.Registered(s, k, now)
  {
  }

  lemma ConfirmTo(s: State, b: Binding, id: ActionId, version: nat, actor: Subject, now: Time, a: Action)
    requires b.actionId == id && b.state == BindingConfirmed && id in s.actions && s.actions[id].version == version
    requires Advance(s.actions[id], Confirmed, Some(now), Some(actor)) == Ok(a)
    ensures ConfirmAndAdvance(s, b, id, version, actor, now).state ==
            s.(actions := s.actions[id := a], bindings := s.bindings[b.id := b])
  {
  }

  /** The approved state is the registered one with the action confirmed. */
  lemma ApprovedIs(s: State, k: Call, now: Time)
    requires G.Fresh(s, k, now)
    ensures var r, b := G.Registered(s, k, now), G.Confirmation(s, k, now);
            && b.actionId == k.actionId && b.state == BindingConfirmed
            && k.actionId in r.actions && r.actions[k.actionId] == G.ActionAt(s, k, now, ConfirmationRequired, 2)
            && G.Approved(s, k, now) ==
               r.(actions := r.actions[k.actionId := G.ActionAt(s, k, now, Confirmed, 3)],
                  bindings := r.bindings[b.id := b])
  {
    var r := G.Registered(s, k, now);
    assert G.Approved(s, k, now).actions == r.actions[k.actionId := G.ActionAt(s, k, now, Confirmed, 3)];
  }

  lemma ConfirmCall(s: State, k: Call, now: Time)
    requires G.Fresh(s, k, now)
    ensures ConfirmAndAdvance(G.Registered(s, k, now), G.Confirmation(s, k, now), k.actionId, 2, k.who.subject,
                              now).state
            == G.Approved(s, k, now)
  {
    var b := G.ActionAt(s, k, now, Confirmed, 3);
    ApprovedIs(s, k, now);
    G.AdvancesAt(s, k, now, ConfirmationRequired, 2, Confirmed);
    ConfirmTo(G.Registered(s, k, now), G.Confirmation(s, k, now), k.actionId, 2, k.who.subject, now, b);
  }

  /** Capturing for a confirmed action at its revision. */
  lemma CaptureCall(s: State, snap: Snapshot, id: ActionId, version: nat, now: Time, b: Action)
    requires id in s.actions && s.actions[id].state == Confirmed && s.actions[id].version == version
    requires snap.actionId == id && snap.revision == s.actions[id].planRevision
    requires Advance(s.actions[id], SnapshotCaptured, Some(now), Some(s.actions[id].requester)) == Ok(b)
    ensures CaptureSnapshot(s, snap, id, version, now).state ==
            s.(actions := s.actions[id := b], snapshots := s.snapshots + [snap])
  {
  }

  lemma ProducesApproved(s: State, k: Call, now: Time)
    requires Produced(s) && G.Fresh(s, k, now)
    ensures Produced(G.Approved(s, k, now))
  {
    RegisterCall(s, k, now);
    AfterRegister(s, G.DecisionOf(s, k, now), G.ActionAt(s, k, now, ConfirmationRequired, 2), G.Registered(s, k, now));
    ConfirmCall(s, k, now);
    AfterConfirm(G.Registered(s, k, now), G.Confirmation(s, k, now), k.actionId, 2, k.who.subject, now,
                 G.Approved(s, k, now));
  }

  lemma ProducesCaptured(s: State, k: Call, now: Time)
    requires G.Fresh(s, k, now) && Produced(G.Approved(s, k, now))
    ensures Produced(G.Captured(s, k, now, 0))
  {
    G.CapturedFromApproved(s, k, now, 0);
    G.AdvancesAt(s, k, now, Confirmed, 3, SnapshotCaptured);
    CaptureCall(G.Approved(s, k, now), G.SnapOf(s, k, 0), k.actionId, 3, now,
                G.ActionAt(s, k, now, SnapshotCaptured, 4));
    AfterCapture(G.Approved(s, k, now), G.SnapOf(s, k, 0), k.actionId, 3, now, G.Captured(s, k, now, 0));
  }

  lemma ProducesLeased(s: State, k: Call, now: Time)
    requires Produced(s) && G.Fresh(s, k, now)
    ensures Produced(G.LeasedAt(s, k, now, 0, 0))
  {
    ProducesApproved(s, k, now);
    ProducesCaptured(s, k, now);
    G.Leases(s, k, now, 0, 0);
    AfterLease(G.Captured(s, k, now, 0), k.actionId, 4, 0, now, G.LeasedAt(s, k, now, 0, 0));
  }

  /** From a leased action to its write. */
  lemma ProducesApplied(l: State, c: Contract, now: Time)
    requires Produced(l) && Runnable(l, c, now) && NextPlan(l, c, now).Ok? && c.actionId !in l.evidence
    requires l.bindings[c.confirmationId].state == BindingConfirmed
    ensures Produced(Applied(l, c, NextPlan(l, c, now).value))
  {
    var id, v := c.actionId, l.actions[c.actionId].version;
    var e := l.(evidence := l.evidence[id := c]);
    AfterEvidence(l, id, c, e);
    BeginSucceeds(l, c, now);
    AfterBegin(e, id, v, c.confirmationId, now, Begun(l, c));
    BegunMutates(l, c, now);
    AfterMutate(Begun(l, c), id, v + 1, c.expectedRevision, c.fields, now, Applied(l, c, NextPlan(l, c, now).value));
  }

  /** A failed verification on record, and the action flagged for rollback. */
  function Flagged(m: State, id: ActionId): State
    requires id in m.actions
  {
    var a := m.actions[id];
    m.(actions := m.actions[id := a.(state := RollbackRequested, version := a.version + 2)],
       outcomes := m.outcomes[id := ReadBackFailed])
  }

  function FailedOnce(m: State, id: ActionId): State
    requires id in m.actions
  {
    var a := m.actions[id];
    m.(actions := m.actions[id := a.(state := VerificationFailed, version := a.version + 1)],
       outcomes := m.outcomes[id := ReadBackFailed])
  }

  lemma FailureCall(m: State, id: ActionId, now: Time)
    requires id in m.actions && m.actions[id].state == ExecutedPendingVerification
    requires m.actions[id].approver.Some? && now < m.actions[id].expiresAt
    ensures RecordVerification(m, id, m.actions[id].version, false, now).state == FailedOnce(m, id)
  {
  }

  lemma FlagCall(m: State, id: ActionId, now: Time)
    requires id in m.actions && m.actions[id].approver.Some? && now < m.actions[id].expiresAt
    ensures AdvanceRollback(FailedOnce(m, id), id, m.actions[id].version + 1, {VerificationFailed},
                            RollbackRequested, now).state
            == Flagged(m, id)
  {
    var f := FailedOnce(m, id);
    var b := f.actions[id].(state := RollbackRequested, version := m.actions[id].version + 2);
    G.AdvanceTo(f, id, m.actions[id].version + 1, RollbackRequested, f.actions[id].requester, now, b);
    assert f.actions[id := b] == Flagged(m, id).actions;
  }

  lemma ProducesFlagged(m: State, id: ActionId, now: Time)
    requires Produced(m) && id in m.actions && m.actions[id].state == ExecutedPendingVerification
    requires m.actions[id].approver.Some? && now < m.actions[id].expiresAt
    ensures Produced(Flagged(m, id))
  {
    FailureCall(m, id, now);
    AfterRecord(m, id, m.actions[id].version, false, now, FailedOnce(m, id));
    FlagCall(m, id, now);
    AfterFlag(FailedOnce(m, id), id, m.actions[id].version + 1, now, Flagged(m, id));
  }

  // ----- a rollback action, registered, confirmed and captured ------------------------------

  function RbDecision(p: ProjectPlan, rid: ActionId, oid: ActionId, who: Subject, now: Time): Decision {
    Decision(Identity(rid, 0, 0, p.revision, p, 0, who, RollbackProjectPlan, p.target, Staging),
             Request(RollbackProjectPlan, p.target, oid, map[], Staging), who, now, now + DECISION_TTL,
             OwnerConfirmation, now + PLAN_TTL)
  }

  function RbAction(p: ProjectPlan, rid: ActionId, oid: ActionId, who: Subject, now: Time, st: LifecycleState,
                    version: nat): Action {
    FreshAction(RbDecision(p, rid, oid, who, now), Some(Refs(oid, 0))).(
      state := st, version := version, approver := if version >= 3 then Some(who) else None)
  }

  function RbBinding(rid: ActionId, who: Subject, now: Time): Binding {
    Binding(ConfirmationId(rid, who, now), rid, who, OwnerConfirmation, now, now + DECISION_TTL, Some(who),
            BindingConfirmed)
  }

  function RbRegistered(f: State, p: ProjectPlan, rid: ActionId, oid: ActionId, who: Subject, now: Time): State {
    f.(actions := f.actions[rid := RbAction(p, rid, oid, who, now, ConfirmationRequired, 2)],
       decisions := f.decisions[rid := RbDecision(p, rid, oid, who, now)],
       index := f.index[Key(p.target, RollbackProjectPlan, oid) := rid])
  }

  function RbApproved(f: State, p: ProjectPlan, rid: ActionId, oid: ActionId, who: Subject, now: Time): State {
    RbRegistered(f, p, rid, oid, who, now).(
      actions := f.actions[rid := RbAction(p, rid, oid, who, now, Confirmed, 3)],
      bindings := f.bindings[ConfirmationId(rid, who, now) := RbBinding(rid, who, now)])
  }

  function RbCaptured(f: State, p: ProjectPlan, rid: ActionId, oid: ActionId, who: Subject, now: Time): State {
    RbApproved(f, p, rid, oid, who, now).(
      actions := f.actions[rid := RbAction(p, rid, oid, who, now, SnapshotCaptured, 4)],
      snapshots := f.snapshots + [Snapshot(1, rid, p.target, p.environment, p.revision, p)])
  }

  lemma RbAdvances(p: ProjectPlan, rid: ActionId, oid: ActionId, who: Subject, now: Time, st: LifecycleState,
                   version: nat, next: LifecycleState)
    requires (st == ConfirmationRequired && version == 2 && next == Confirmed)
             || (st == Confirmed && version == 3 && next == SnapshotCaptured)
    ensures Advance(RbAction(p, rid, oid, who, now, st, version), next, Some(now), Some(who))
            == Ok(RbAction(p, rid, oid, who, now, next, version + 1))
  {
  }

  /** The rollback action is new to the store. */
  predicate Room(f: State, p: ProjectPlan, rid: ActionId, oid: ActionId) {
    rid !in f.actions && rid != oid && Key(p.target, RollbackProjectPlan, oid) !in f.index && |f.actions| < f.maxRecords
  }

  lemma RbRegisterCall(f: State, p: ProjectPlan, rid: ActionId, oid: ActionId, who: Subject, now: Time)
    requires Room(f, p, rid, oid)
    ensures RegisterAction(f, RbDecision(p, rid, oid, who, now),
                           RbAction(p, rid, oid, who, now, ConfirmationRequired, 2)).state
            == RbRegistered(f, p, rid, oid, who, now)
  {
  }

  lemma RbConfirmCall(f: State, p: ProjectPlan, rid: ActionId, oid: ActionId, who: Subject, now: Time)
    ensures ConfirmAndAdvance(RbRegistered(f, p, rid, oid, who, now), RbBinding(rid, who, now), rid, 2, who, now).state
            == RbApproved(f, p, rid, oid, who, now)
  {
    var t := PutBinding(RbRegistered(f, p, rid, oid, who, now), RbBinding(rid, who, now));
    RbAdvances(p, rid, oid, who, now, ConfirmationRequired, 2, Confirmed);
    G.AdvanceTo(t, rid, 2, Confirmed, who, now, RbAction(p, rid, oid, who, now, Confirmed, 3));
    assert RbApproved(f, p, rid, oid, who, now).actions ==
           t.actions[rid := RbAction(p, rid, oid, who, now, Confirmed, 3)];
  }

  lemma RbCaptureCall(f: State, p: ProjectPlan, rid: ActionId, oid: ActionId, who: Subject, now: Time)
    ensures CaptureSnapshot(RbApproved(f, p, rid, oid, who, now),
                            Snapshot(1, rid, p.target, p.environment, p.revision, p), rid, 3, now).state
            == RbCaptured(f, p, rid, oid, who, now)
  {
    var t := RbApproved(f, p, rid, oid, who, now);
    RbAdvances(p, rid, oid, who, now, Confirmed, 3, SnapshotCaptured);
    CaptureCall(t, Snapshot(1, rid, p.target, p.environment, p.revision, p), rid, 3, now,
                RbAction(p, rid, oid, who, now, SnapshotCaptured, 4));
    assert RbCaptured(f, p, rid, oid, who, now).actions ==
           t.actions[rid := RbAction(p, rid, oid, who, now, SnapshotCaptured, 4)];
  }

  lemma ProducesRollback(f: State, p: ProjectPlan, rid: ActionId, oid: ActionId, who: Subject, now: Time)
    requires Produced(f) && Room(f, p, rid, oid)
    ensures Produced(RbCaptured(f, p, rid, oid, who, now))
  {
    RbRegisterCall(f, p, rid, oid, who, now);
    AfterRegister(f, RbDecision(p, rid, oid, who, now), RbAction(p, rid, oid, who, now, ConfirmationRequired, 2),
                  RbRegistered(f, p, rid, oid, who, now));
    RbConfirmCall(f, p, rid, oid, who, now);
    AfterConfirm(RbRegistered(f, p, rid, oid, who, now), RbBinding(rid, who, now), rid, 2, who, now,
                 RbApproved(f, p, rid, oid, who, now));
    RbCaptureCall(f, p, rid, oid, who, now);
    AfterCapture(RbApproved(f, p, rid, oid, who, now), Snapshot(1, rid, p.target, p.environment, p.revision, p),
                 rid, 3, now, RbCaptured(f, p, rid, oid, who, now));
  }

  /** With its rollback in place, a waiting action can be undone. */
  lemma CapturedIsUndoable(f: State, p: ProjectPlan, rid: ActionId, oid: ActionId, who: Subject, now: Time,
                           snap: Snapshot)
    requires Waiting(f, oid, snap, now) && Room(f, p, rid, oid) && rid !in f.leases && rid !in f.evidence
    requires p == f.plans[f.actions[oid].target] && p.target == f.actions[oid].target
    requires forall i :: 0 <= i < |f.snapshots| ==> f.snapshots[i].actionId != rid
    requires SwitchFor(f.switches, Staging).state == Disengaged && SwitchFor(f.switches, Staging).epoch >= 1
    ensures Undoable(RbCaptured(f, p, rid, oid, who, now), rid, oid, ConfirmationId(rid, who, now), snap, now)
  {
    var t := RbCaptured(f, p, rid, oid, who, now);
    var mine := Snapshot(1, rid, p.target, p.environment, p.revision, p);
    G.LastSnapshotIsFirst(f.snapshots, mine);
    FirstStaysFirst(f.snapshots, mine, oid);
    assert t.actions[oid] == f.actions[oid];
  }

  lemma {:induction false} FirstStaysFirst(snaps: seq<Snapshot>, snap: Snapshot, id: ActionId)
    requires FirstSnapshot(snaps, id).Some?
    ensures FirstSnapshot(snaps + [snap], id) == FirstSnapshot(snaps, id)
  {
    assert (snaps + [snap])[1..] == snaps[1..] + [snap];
    if snaps[0].actionId != id { FirstStaysFirst(snaps[1..], snap, id); }
  }

  // ----- all together, from the empty store -----------------------------------------------------

  function Sample(): Call { G.SampleCall(1) }

  function L(): State { G.LeasedAt(G.Opening(), Sample(), 0, 0, 0) }

  function K(): Contract { G.ContractAt(G.Opening(), Sample(), 0, 0, 0) }

  const SecondPlan := ProjectPlan(7, Staging, 2, "n", "o", 0, 0, true)

  lemma SampleIsNext()
    ensures K().target in L().plans && NextPlan(L(), K(), 0) == Ok(SecondPlan)
  {
    G.SampleIsFresh(1);
    var f := MutationFields(Sample().request.metadata);
    assert Title in f && f[Title] == "n" && f.Keys == {Title};
  }

  /** What the leased sample looks like. */
  lemma LeasedSample()
    ensures Runnable(L(), K(), 0) && K().actionId == 1 && 1 !in L().evidence
    ensures L().bindings[K().confirmationId].state == BindingConfirmed
    ensures L().actions.Keys == {1} && L().leases.Keys == {1} && L().evidence.Keys == {} && L().maxRecords == 9
    ensures L().actions[1] == G.ActionAt(G.Opening(), Sample(), 0, Leased, 5)
            && L().leases[1] == Lease(0, 1, 1, true, 0, LEASE_TTL, 5)
    ensures L().index.Keys == {Key(7, UpdateProjectPlan, 1)} && L().plans == map[7 := G.FirstPlan] && K().target == 7
    ensures L().snapshots == [Snapshot(0, 1, 7, Staging, 1, G.FirstPlan)] && L().switches == G.Opening().switches
  {
    G.SampleIsFresh(1);
  }

  function M(): State
  {
    LeasedSample();
    SampleIsNext();
    Applied(L(), K(), SecondPlan)
  }

  function Final(): State
  {
    AppliedSample();
    RbCaptured(Flagged(M(), 1), SecondPlan, 2, 1, 5, 0)
  }

  /** The facts about the sample's failed action that the rollback rests on. */
  predicate SampleFlagged(f: State) {
    && f.actions.Keys == {1} && f.actions[1] == G.ActionAt(G.Opening(), Sample(), 0, RollbackRequested, 9)
    && f.leases == map[1 := Lease(0, 1, 1, true, 0, LEASE_TTL, 5)] && f.evidence.Keys == {1} && f.maxRecords == 9
    && f.index.Keys == {Key(7, UpdateProjectPlan, 1)} && f.plans == map[7 := SecondPlan]
    && f.snapshots == [Snapshot(0, 1, 7, Staging, 1, G.FirstPlan)] && f.switches == G.Opening().switches
  }

  predicate SampleApplied(m: State) {
    && m.actions.Keys == {1} && m.actions[1] == G.ActionAt(G.Opening(), Sample(), 0, ExecutedPendingVerification, 7)
    && m.leases == map[1 := Lease(0, 1, 1, true, 0, LEASE_TTL, 5)] && m.evidence.Keys == {1} && m.maxRecords == 9
    && m.index.Keys == {Key(7, UpdateProjectPlan, 1)} && m.plans == map[7 := SecondPlan]
    && m.snapshots == [Snapshot(0, 1, 7, Staging, 1, G.FirstPlan)] && m.switches == G.Opening().switches
  }

  lemma AppliedSample()
    ensures SampleApplied(M())
  {
    LeasedSample();
    SampleIsNext();
    assert L().leases == map[1 := Lease(0, 1, 1, true, 0, LEASE_TTL, 5)];
  }

  lemma FlaggedFrom(m: State)
    requires SampleApplied(m)
    ensures SampleFlagged(Flagged(m, 1))
  {
  }

  lemma FlaggedSample()
    ensures 1 in M().actions && SampleFlagged(Flagged(M(), 1))
  {
    AppliedSample();
    FlaggedFrom(M());
  }

  lemma FlaggedIsProduced()
    ensures 1 in M().actions && Produced(Flagged(M(), 1))
  {
    LeasedSample();
    SampleIsNext();
    ProducesOpening();
    G.SampleIsFresh(1);
    ProducesLeased(G.Opening(), Sample(), 0);
    ProducesApplied(L(), K(), 0);
    AppliedSample();
    ProducesFlagged(M(), 1, 0);
  }

  lemma FlaggedHasRoom(f: State)
    requires SampleFlagged(f)
    ensures Room(f, SecondPlan, 2, 1)
  {
    assert |f.actions| == |f.actions.Keys|;
  }

  lemma FinalIsProduced()
    ensures Produced(Final())
  {
    FlaggedIsProduced();
    FlaggedSample();
    FlaggedHasRoom(Flagged(M(), 1));
    ProducesRollback(Flagged(M(), 1), SecondPlan, 2, 1, 5, 0);
  }

  lemma FlaggedIsWaiting(f: State)
    requires SampleFlagged(f)
    ensures Waiting(f, 1, Snapshot(0, 1, 7, Staging, 1, G.FirstPlan), 0)
  {
    var r := RestoreFields(Snapshot(0, 1, 7, Staging, 1, G.FirstPlan));
    assert Title in r && r[Title] == "t" && Objective in r && r[Objective] == "o";
  }

  lemma FlaggedIsUndoable(f: State)
    requires SampleFlagged(f)
    ensures Undoable(RbCaptured(f, SecondPlan, 2, 1, 5, 0), 2, 1, ConfirmationId(2, 5, 0),
                     Snapshot(0, 1, 7, Staging, 1, G.FirstPlan), 0)
  {
    FlaggedIsWaiting(f);
    FlaggedHasRoom(f);
    CapturedIsUndoable(f, SecondPlan, 2, 1, 5, 0, Snapshot(0, 1, 7, Staging, 1, G.FirstPlan));
  }

  lemma FinalIsUndoable()
    ensures Undoable(Final(), 2, 1, ConfirmationId(2, 5, 0), Snapshot(0, 1, 7, Staging, 1, G.FirstPlan), 0)
  {
    FlaggedSample();
    FlaggedIsUndoable(Flagged(M(), 1));
  }

  lemma FlaggedIsOrderly(f: State)
    requires SampleFlagged(f)
    ensures Orderly(f)
  {
    assert RecordOk(f, 1);
    assert CaptureOk(f, f.snapshots[0]);
  }

  /** Adding a captured rollback to a store that is in order. */
  lemma RbCapturedIsOk(f: State, p: ProjectPlan, rid: ActionId, oid: ActionId, who: Subject, now: Time)
    requires Orderly(f) && Room(f, p, rid, oid) && rid !in f.leases && oid in f.actions
             && f.actions[oid].target == p.target
    ensures Orderly(RbCaptured(f, p, rid, oid, who, now))
  {
    var t := RbCaptured(f, p, rid, oid, who, now);
    forall id | id in t.actions ensures RecordOk(t, id) {
      if id != rid { assert RecordOk(f, id); }
    }
    forall i | 0 <= i < |t.snapshots| ensures CaptureOk(t, t.snapshots[i]) {
      if i < |f.snapshots| { assert t.snapshots[i] == f.snapshots[i] && CaptureOk(f, f.snapshots[i]); }
    }
  }

  lemma FinalIsOrderly()
    ensures Orderly(Final())
  {
    FlaggedSample();
    var f := Flagged(M(), 1);
    FlaggedIsOrderly(f);
    FlaggedHasRoom(f);
    RbCapturedIsOk(f, SecondPlan, 2, 1, 5, 0);
  }

  lemma InitialIsValid()
    ensures Valid(Initial(9, 0))
  {
    var z := Initial(9, 0);
    assert forall t :: StoredOk(z.plans, z.log, t);
  }

  /** The undo theorem is not vacuous: some sequence of repository calls on an
      empty store leads to a valid state that satisfies its assumption and in
      which the rollback succeeds. */
  lemma RollbackCanSucceed()
    ensures exists cs :: Witnesses(C.DoAll(Initial(9, 0), cs))
  {
    FinalIsProduced();
    var cs :| C.DoAll(Initial(9, 0), cs) == Final();
    InitialIsValid();
    C.CommandsKeepValid(Initial(9, 0), cs);
    FinalIsOrderly();
    FinalIsUndoable();
    UndoableSucceeds(Final(), 2, 1, ConfirmationId(2, 5, 0), Snapshot(0, 1, 7, Staging, 1, G.FirstPlan), 3, 0);
    assert Witnesses(C.DoAll(Initial(9, 0), cs));
  }

  ghost predicate Witnesses(s: State) {
    && Valid(s) && Orderly(s)
    && ExecuteRollback(s, 2, 1, ConfirmationId(2, 5, 0), 3, 0).result == Ok(Done(RollbackSucceeded, RolledBack))
  }
}
