/** Each atomic composite, used the way its callers use it, keeps the
    invariant and only moves the state forward. */
module Preservation {
  import opened Types
  import opened Lifecycle
  import opened Plans
  import opened KillSwitch
  import opened Store
  import opened Gate
  import opened Executor
  import opened Service
  import opened Invariant

  /** What a successful compare-and-set advance did. */
  lemma AdvanceDid(s: State, id: ActionId, version: nat, next: LifecycleState, actor: Subject, now: Time)
    requires AdvanceAction(s, id, version, next, actor, now).result.Ok?
    ensures var r := AdvanceAction(s, id, version, next, actor, now);
            && id in s.actions && r.state == s.(actions := s.actions[id := r.result.value])
            && ActionEvolves(s.actions[id], r.result.value)
            && r.result.value.state == next && r.result.value.version == version + 1
            && InTable(s.actions[id].state, next) && !Terminal(s.actions[id].state)
            && (now < s.actions[id].expiresAt || next == Expired)
            && (s.actions[id].approver.Some? || next == Confirmed ==> r.result.value.approver.Some?)
            && r.result.value.id == s.actions[id].id && r.result.value.operation == s.actions[id].operation
            && r.result.value.target == s.actions[id].target
            && r.result.value.planRevision == s.actions[id].planRevision
  {
    var b := AdvanceAction(s, id, version, next, actor, now).result.value;
    assert b.Fixed() == s.actions[id].Fixed();
  }

  /** `t` is `s` after one action advanced to `next`, with nothing else that
      the invariant is about changed, save for a first lease. */
  predicate Moved(s: State, t: State, id: ActionId, next: LifecycleState) {
    && Advanced(s, t, id) && InTable(s.actions[id].state, next)
    && t.actions[id].state == next && t.actions[id].version == s.actions[id].version + 1
    && (s.actions[id].approver.Some? || next == Confirmed ==> t.actions[id].approver.Some?)
    && t.actions[id].id == s.actions[id].id && t.actions[id].operation == s.actions[id].operation
    && t.actions[id].target == s.actions[id].target && t.actions[id].planRevision == s.actions[id].planRevision
    && t.log == s.log && t.plans == s.plans
  }

  /** States an advance can reach without a new lease, snapshot or write, and
      the kind of action that can reach them. */
  predicate Plain(next: LifecycleState, operation: Operation) {
    || next.Confirmed? || next.Running? || next.ReconciliationRequired?
    || (operation == UpdateProjectPlan
        && (next.ExecutedPendingVerification? || next.VerifiedSuccess? || next.VerificationFailed?
            || next.RollbackRequested?))
  }

  lemma MovedIsVisited(s: State, t: State, id: ActionId, next: LifecycleState)
    requires Moved(s, t, id, next) && t.leases == s.leases && ActionOk(s, id)
    requires Plain(next, s.actions[id].operation)
    ensures Visited(t.actions[id]) && LeaseOk(t.leases, t.actions[id])
  {
  }

  /** A plain advance keeps the invariant if the progress it claims is real. */
  lemma MovedKeeps(s: State, t: State, id: ActionId, next: LifecycleState)
    requires Inv(s) && Moved(s, t, id, next) && t.leases == s.leases && t.snapshots == s.snapshots && BindingsOk(t)
    requires Plain(next, s.actions[id].operation)
    requires id in s.decisions && ProgressOk(t, t.actions[id], s.decisions[id])
    ensures Keeps(s, t)
  {
    assert ActionOk(s, id);
    MovedIsVisited(s, t, id, next);
    QuietAdvance(s, t, id);
  }

  lemma LeaseDid(s: State, id: ActionId, version: nat, leaseId: LeaseId, now: Time)
    requires AcquireLease(s, id, version, leaseId, now).result.Ok? && id in s.actions && id !in s.leases
    ensures var t := AcquireLease(s, id, version, leaseId, now).state;
            && Moved(s, t, id, Leased) && t.snapshots == s.snapshots && t.bindings == s.bindings
            && id in t.leases && t.leases[id].fencingToken == 1 && t.leases[id].actionVersion == t.actions[id].version
            && s.actions[id].state == SnapshotCaptured
  {
    AdvanceDid(s, id, version, Leased, s.actions[id].requester, now);
  }

  lemma LeaseKeeps(s: State, id: ActionId, version: nat, leaseId: LeaseId, now: Time)
    requires Inv(s)
    ensures Keeps(s, AcquireLease(s, id, version, leaseId, now).state)
  {
    var r := AcquireLease(s, id, version, leaseId, now);
    if r.result.Err? { EvolvesRefl(s); return; }
    assert ActionOk(s, id);
    LeaseDid(s, id, version, leaseId, now);
    LeasedKeeps(s, r.state, id);
  }

  lemma LeasedKeeps(s: State, t: State, id: ActionId)
    requires Inv(s) && Moved(s, t, id, Leased) && t.snapshots == s.snapshots && t.bindings == s.bindings
    requires id in t.leases && t.leases[id].fencingToken == 1 && t.leases[id].actionVersion == t.actions[id].version
    ensures Keeps(s, t)
  {
    assert ActionOk(s, id);
    QuietAdvance(s, t, id);
  }

  lemma BeginDid(s: State, id: ActionId, version: nat, cid: ConfirmationId, now: Time)
    requires BeginExecution(s, id, version, cid, now).result.Ok?
    ensures var t := BeginExecution(s, id, version, cid, now).state;
            && Moved(s, t, id, Running) && t.leases == s.leases && t.snapshots == s.snapshots
            && cid in s.bindings && t.bindings == s.bindings[cid := s.bindings[cid].(state := BindingConsumed)]
  {
    AdvanceDid(s, id, version, Running, s.actions[id].requester, now);
  }

  lemma BeginKeeps(s: State, id: ActionId, version: nat, cid: ConfirmationId, now: Time)
    requires Inv(s)
    ensures Keeps(s, BeginExecution(s, id, version, cid, now).state)
  {
    var r := BeginExecution(s, id, version, cid, now);
    if r.result.Err? { EvolvesRefl(s); return; }
    BeginDid(s, id, version, cid, now);
    BegunKeeps(s, r.state, id, cid);
  }

  lemma BegunKeeps(s: State, t: State, id: ActionId, cid: ConfirmationId)
    requires Inv(s) && Moved(s, t, id, Running) && t.leases == s.leases && t.snapshots == s.snapshots
    requires cid in s.bindings && t.bindings == s.bindings[cid := s.bindings[cid].(state := BindingConsumed)]
    ensures Keeps(s, t)
  {
    assert ActionOk(s, id);
    forall c | c in t.bindings ensures BindingOk(t.decisions, t.bindings[c]) {
      assert BindingOk(s.decisions, s.bindings[c]);
    }
    MovedKeeps(s, t, id, Running);
  }

  lemma RecordDid(s: State, id: ActionId, version: nat, success: bool, now: Time)
    requires RecordVerification(s, id, version, success, now).result.Ok?
    ensures var t := RecordVerification(s, id, version, success, now).state;
            && Moved(s, t, id, if success then VerifiedSuccess else VerificationFailed)
            && t.leases == s.leases && t.snapshots == s.snapshots && t.bindings == s.bindings
            && s.actions[id].state == ExecutedPendingVerification
  {
    AdvanceDid(s, id, version, if success then VerifiedSuccess else VerificationFailed, s.actions[id].requester, now);
  }

  lemma RecordedKeeps(s: State, t: State, id: ActionId, success: bool)
    requires Inv(s) && Moved(s, t, id, if success then VerifiedSuccess else VerificationFailed)
    requires t.leases == s.leases && t.snapshots == s.snapshots && t.bindings == s.bindings
    requires s.actions[id].state == ExecutedPendingVerification && (!success ==> Overtaken(s, s.actions[id]))
    ensures Keeps(s, t)
  {
    assert ActionOk(s, id);
    LandedGrows(s, t, s.actions[id], s.decisions[id].Mutation());
    LandedMoves(t, s.actions[id], t.actions[id], s.decisions[id].Mutation());
    MovedKeeps(s, t, id, if success then VerifiedSuccess else VerificationFailed);
  }

  lemma LandedMoves(s: State, a: Action, b: Action, fields: Fields)
    requires Landed(s, a, fields) && a.target == b.target && a.planRevision == b.planRevision
    ensures Landed(s, b, fields)
  {
    var p :| Logged(s.log, a.target, p) && p.revision == a.planRevision + 1 && Carries(p, fields);
    assert Logged(s.log, b.target, p);
  }

  /** A failed read-back is recorded only for an action that was overtaken. */
  lemma RecordKeeps(s: State, id: ActionId, version: nat, success: bool, now: Time)
    requires Inv(s)
    requires id in s.actions && !success ==> Overtaken(s, s.actions[id])
    ensures Keeps(s, RecordVerification(s, id, version, success, now).state)
  {
    var r := RecordVerification(s, id, version, success, now);
    if r.result.Err? { EvolvesRefl(s); return; }
    RecordDid(s, id, version, success, now);
    RecordedKeeps(s, r.state, id, success);
  }

  lemma ReconciledDid(s: State, id: ActionId, version: nat, next: LifecycleState, outcome: Outcome, now: Time)
    requires MarkReconciled(s, id, version, next, outcome, now).result.Ok?
    ensures var t := MarkReconciled(s, id, version, next, outcome, now).state;
            Moved(s, t, id, next) && t.leases == s.leases && t.snapshots == s.snapshots && t.bindings == s.bindings
  {
    AdvanceDid(s, id, version, next, s.actions[id].requester, now);
  }

  /** An advance that claims no progress. */
  lemma QuietlyMovedKeeps(s: State, t: State, id: ActionId, next: LifecycleState)
    requires Inv(s) && Moved(s, t, id, next) && t.leases == s.leases && t.snapshots == s.snapshots && BindingsOk(t)
    requires next.ReconciliationRequired? || next.Confirmed?
    ensures Keeps(s, t)
  {
    assert ActionOk(s, id);
    MovedKeeps(s, t, id, next);
  }

  lemma ReconciledKeeps(s: State, id: ActionId, version: nat, outcome: Outcome, now: Time)
    requires Inv(s)
    ensures Keeps(s, MarkReconciled(s, id, version, ReconciliationRequired, outcome, now).state)
  {
    var r := MarkReconciled(s, id, version, ReconciliationRequired, outcome, now);
    if r.result.Err? { EvolvesRefl(s); return; }
    ReconciledDid(s, id, version, ReconciliationRequired, outcome, now);
    QuietlyMovedKeeps(s, r.state, id, ReconciliationRequired);
  }

  lemma LandedKeeps(s: State, t: State, id: ActionId)
    requires Inv(s) && Moved(s, t, id, ExecutedPendingVerification) && t.leases == s.leases
             && t.snapshots == s.snapshots
    requires t.bindings == s.bindings && s.actions[id].operation == UpdateProjectPlan
    requires id in s.decisions && Landed(s, s.actions[id], s.decisions[id].Mutation())
    ensures Keeps(s, t)
  {
    assert ActionOk(s, id);
    LandedGrows(s, t, s.actions[id], s.decisions[id].Mutation());
    LandedMoves(t, s.actions[id], t.actions[id], s.decisions[id].Mutation());
    MovedKeeps(s, t, id, ExecutedPendingVerification);
  }

  lemma ConcludedKeeps(s: State, id: ActionId, version: nat, outcome: Outcome, now: Time)
    requires Inv(s) && id in s.actions && id in s.decisions && s.actions[id].operation == UpdateProjectPlan
    requires Landed(s, s.actions[id], s.decisions[id].Mutation())
    ensures Keeps(s, MarkReconciled(s, id, version, ExecutedPendingVerification, outcome, now).state)
  {
    var r := MarkReconciled(s, id, version, ExecutedPendingVerification, outcome, now);
    if r.result.Err? { EvolvesRefl(s); return; }
    ReconciledDid(s, id, version, ExecutedPendingVerification, outcome, now);
    LandedKeeps(s, r.state, id);
  }

  lemma FlagDid(s: State, id: ActionId, version: nat, now: Time)
    requires AdvanceRollback(s, id, version, {VerificationFailed, ExecutionFailed}, RollbackRequested, now).result.Ok?
    ensures var from := {VerificationFailed, ExecutionFailed};
            var t := AdvanceRollback(s, id, version, from, RollbackRequested, now).state;
            && Moved(s, t, id, RollbackRequested) && t.leases == s.leases && t.snapshots == s.snapshots
            && t.bindings == s.bindings
            && (s.actions[id].state.VerificationFailed? || s.actions[id].state.ExecutionFailed?)
  {
    AdvanceDid(s, id, version, RollbackRequested, s.actions[id].requester, now);
  }

  lemma FlaggedKeeps(s: State, t: State, id: ActionId)
    requires Inv(s) && Moved(s, t, id, RollbackRequested) && t.leases == s.leases && t.snapshots == s.snapshots
    requires t.bindings == s.bindings
    requires s.actions[id].state.VerificationFailed? || s.actions[id].state.ExecutionFailed?
    ensures Keeps(s, t)
  {
    assert ActionOk(s, id);
    MovedKeeps(s, t, id, RollbackRequested);
  }

  lemma FlagKeeps(s: State, id: ActionId, version: nat, now: Time)
    requires Inv(s)
    ensures var r := AdvanceRollback(s, id, version, {VerificationFailed, ExecutionFailed}, RollbackRequested, now);
            Keeps(s, r.state)
  {
    var r := AdvanceRollback(s, id, version, {VerificationFailed, ExecutionFailed}, RollbackRequested, now);
    if r.result.Err? { EvolvesRefl(s); return; }
    FlagDid(s, id, version, now);
    FlaggedKeeps(s, r.state, id);
  }

  lemma AdvanceMoved(s: State, id: ActionId, version: nat, next: LifecycleState, actor: Subject, now: Time)
    requires AdvanceAction(s, id, version, next, actor, now).result.Ok?
    ensures var t := AdvanceAction(s, id, version, next, actor, now).state;
            && Moved(s, t, id, next) && t == s.(actions := t.actions)
  {
    AdvanceDid(s, id, version, next, actor, now);
  }

  lemma ReconcileAdvanceKeeps(s: State, id: ActionId, version: nat, actor: Subject, now: Time)
    requires Inv(s)
    ensures var r := AdvanceAction(s, id, version, ReconciliationRequired, actor, now);
            Keeps(s, r.state)
  {
    var r := AdvanceAction(s, id, version, ReconciliationRequired, actor, now);
    if r.result.Err? { EvolvesRefl(s); return; }
    AdvanceMoved(s, id, version, ReconciliationRequired, actor, now);
    QuietlyMovedKeeps(s, r.state, id, ReconciliationRequired);
  }

  // ----- composites that leave every action alone --------------------------

  /** Only confirmations, outcomes, evidence, switches or lease grants change. */
  predicate Bookkeeping(s: State, t: State) {
    && t.actions == s.actions && t.decisions == s.decisions && t.index == s.index
    && t.log == s.log && t.plans == s.plans && t.snapshots == s.snapshots
    && t.leases.Keys == s.leases.Keys
  }

  lemma BookkeepingKeeps(s: State, t: State)
    requires Inv(s) && Bookkeeping(s, t)
    requires forall id :: IdEvolves(s, t, id)
    requires SwitchEvolves(SwitchFor(s.switches, Staging), SwitchFor(t.switches, Staging))
    requires BindingsOk(t) && KillSwitch.WellFormed(t.switches)
    ensures Keeps(s, t)
  {
    assert Evolves(s, t);
    forall id | id in t.actions ensures ActionOk(t, id) {
      assert ActionOk(s, id);
      UntouchedStaysOk(s, t, id);
    }
    AuthorsStayOk(s, t);
    SnapshotsStayOk(s, t);
  }

  /** Notes are outcomes, first evidence and lease releases. */
  predicate Notes(s: State, t: State, id: ActionId) {
    && t == s.(outcomes := t.outcomes, evidence := t.evidence, leases := t.leases)
    && (t.leases == s.leases || (id in s.leases && t.leases == s.leases[id := s.leases[id].(granted := false)]))
    && (t.evidence == s.evidence
        || (id !in s.evidence && id in t.evidence && t.evidence == s.evidence[id := t.evidence[id]]))
  }

  lemma NotesKeep(s: State, t: State, id: ActionId)
    requires Inv(s) && Notes(s, t, id)
    ensures Keeps(s, t)
  {
    forall x ensures IdEvolves(s, t, x) {}
    BookkeepingKeeps(s, t);
  }

  lemma OutcomeKeeps(s: State, id: ActionId, version: nat, outcome: Outcome)
    requires Inv(s)
    ensures Keeps(s, MarkOutcome(s, id, version, outcome).state)
  {
    var t := MarkOutcome(s, id, version, outcome).state;
    assert Notes(s, t, id);
    NotesKeep(s, t, id);
  }

  lemma EvidenceKeeps(s: State, id: ActionId, c: Contract)
    requires Inv(s)
    ensures Keeps(s, BindEvidence(s, id, c).state)
  {
    var t := BindEvidence(s, id, c).state;
    assert Notes(s, t, id);
    NotesKeep(s, t, id);
  }

  lemma ReleaseKeeps(s: State, id: ActionId, leaseId: LeaseId, token: nat)
    requires Inv(s)
    ensures Keeps(s, ReleaseLease(s, id, leaseId, token).state)
  {
    var t := ReleaseLease(s, id, leaseId, token).state;
    assert Notes(s, t, id);
    NotesKeep(s, t, id);
  }

  lemma SwitchKeeps(s: State, change: Change)
    requires Inv(s)
    ensures var t := s.(switches := Apply(s.switches, change)); Keeps(s, t)
  {
    var t := s.(switches := Apply(s.switches, change));
    assert SwitchEvolves(SwitchFor(s.switches, Staging), SwitchFor(t.switches, Staging));
    BookkeepingKeeps(s, t);
  }

  lemma BindingKeeps(s: State, b: Binding)
    requires Inv(s) && BindingOk(s.decisions, b)
    ensures Keeps(s, PutBinding(s, b))
  {
    var t := PutBinding(s, b);
    forall c | c in t.bindings ensures BindingOk(t.decisions, t.bindings[c]) {
      if c != b.id { assert BindingOk(s.decisions, s.bindings[c]); }
    }
    BookkeepingKeeps(s, t);
  }

  lemma AskKeeps(s: State, id: ActionId, pending: ConfirmationId, now: Time)
    requires Inv(s)
    ensures var t := RequestConfirmation(s, id, pending, now).state; Keeps(s, t)
  {
    var r := RequestConfirmation(s, id, pending, now);
    if r.result.Ok? && r.result.value !in s.bindings {
      ConfirmationWindow(s, id, pending, now);
      BindingKeeps(s, r.state.bindings[r.result.value]);
    } else {
      EvolvesRefl(s);
    }
  }

  lemma ConfirmedKeeps(s: State, b: Binding, version: nat, actor: Subject, now: Time)
    requires Inv(s) && BindingOk(s.decisions, b)
    ensures var t := AdvanceAction(PutBinding(s, b), b.actionId, version, Confirmed, actor, now).state; Keeps(s, t)
  {
    var u := PutBinding(s, b);
    BindingKeeps(s, b);
    var r := AdvanceAction(u, b.actionId, version, Confirmed, actor, now);
    if r.result.Ok? {
      AdvanceMoved(u, b.actionId, version, Confirmed, actor, now);
      QuietlyMovedKeeps(u, r.state, b.actionId, Confirmed);
      EvolvesTrans(s, u, r.state);
    }
  }

  lemma ConfirmKeeps(s: State, cid: ConfirmationId, version: nat, actor: Subject, now: Time)
    requires Inv(s)
    ensures var t := Confirm(s, cid, version, actor, now).state; Keeps(s, t)
  {
    EvolvesRefl(s);
    if cid in s.bindings && BuildConfirmation(s.bindings[cid], actor, now).Ok? {
      var b := BuildConfirmation(s.bindings[cid], actor, now).value;
      assert BindingOk(s.decisions, s.bindings[cid]);
      ConfirmedKeeps(s, b, version, actor, now);
      assert Confirm(s, cid, version, actor, now) ==
             AdvanceAction(PutBinding(s, b), b.actionId, version, Confirmed, actor, now);
    }
  }

  // ----- snapshots --------------------------------------------------------

  /** One more snapshot, for an action that had none. */
  lemma SnapshotAppended(s: State, t: State, snap: Snapshot)
    requires SnapshotsOk(s) && Evolves(s, t) && t.snapshots == s.snapshots + [snap] && SnapshotOk(t, snap)
    requires snap.actionId in s.actions && Rank(s.actions[snap.actionId].state) > Rank(SnapshotCaptured)
    ensures SnapshotsOk(t)
  {
    forall i | 0 <= i < |s.snapshots|
      ensures t.snapshots[i] == s.snapshots[i] && SnapshotOk(t, s.snapshots[i])
              && s.snapshots[i].actionId != snap.actionId {
      assert SnapshotOk(s, s.snapshots[i]);
      SnapshotStaysOk(s, t, s.snapshots[i]);
    }
    assert t.snapshots[|s.snapshots|] == snap;
  }

  lemma CaptureDid(s: State, snap: Snapshot, id: ActionId, version: nat, now: Time)
    requires CaptureSnapshot(s, snap, id, version, now).result.Ok?
    ensures var t := CaptureSnapshot(s, snap, id, version, now).state;
            && id in s.actions && s.actions[id].state == Confirmed
            && Moved(s, t, id, SnapshotCaptured) && t.leases == s.leases && t.bindings == s.bindings
            && t.snapshots == s.snapshots + [snap] && snap.actionId == id && snap.revision == s.actions[id].planRevision
  {
    AdvanceDid(s, id, version, SnapshotCaptured, s.actions[id].requester, now);
  }

  lemma CapturedKeeps(s: State, t: State, snap: Snapshot, id: ActionId)
    requires Inv(s) && Moved(s, t, id, SnapshotCaptured) && t.leases == s.leases && t.bindings == s.bindings
    requires s.actions[id].state == Confirmed
    requires t.snapshots == s.snapshots + [snap] && snap.actionId == id && snap.revision == s.actions[id].planRevision
    requires snap.target == snap.payload.target == s.actions[id].target && snap.revision == snap.payload.revision
    requires snap.environment == snap.payload.environment == Staging && Logged(s.log, snap.target, snap.payload)
    ensures Keeps(s, t)
  {
    assert ActionOk(s, id);
    QuietEvolves(s, t, id);
    SnapshotAppended(s, t, snap);
    QuietAdvance(s, t, id);
  }

  lemma CaptureKeeps(s: State, id: ActionId, version: nat, seen: ProjectPlan, sid: SnapshotId, now: Time)
    requires Inv(s) && Logged(s.log, seen.target, seen) && seen.environment == Staging
    ensures var t := Capture(s, id, version, seen, sid, now).state; Keeps(s, t)
  {
    var r := Capture(s, id, version, seen, sid, now);
    if r.result.Err? { EvolvesRefl(s); return; }
    var snap := Snapshot(sid, id, seen.target, seen.environment, seen.revision, seen);
    assert r == CaptureSnapshot(s, snap, id, version, now);
    CaptureDid(s, snap, id, version, now);
    CapturedKeeps(s, r.state, snap, id);
  }

  // ----- plan writes ------------------------------------------------------

  lemma LoggedIsStaging(plans: map<Target, ProjectPlan>, log: seq<Write>, t: Target, p: ProjectPlan)
    requires LogOk(plans, log) && Logged(log, t, p)
    ensures p.environment == Staging && p.target == t && t in plans && p.revision <= plans[t].revision
  {
    var i :| 0 <= i < |log| && log[i].target == t && log[i].after == p;
    assert WriteOk(log[i]);
  }

  /** The stored plan at the authorized revision is the authorized plan. */
  lemma StoredIsAuthorized(s: State, id: ActionId)
    requires Inv(s) && id in s.actions && s.actions[id].target in s.plans
    requires s.plans[s.actions[id].target].revision == s.actions[id].planRevision
    ensures id in s.decisions && s.plans[s.actions[id].target] == s.decisions[id].identity.targetDigest
  {
    var t := s.actions[id].target;
    assert ActionOk(s, id);
    assert StoredOk(s.plans, s.log, t);
    RevisionPinsPlan(s.log, t, s.plans[t], s.decisions[id].identity.targetDigest);
  }

  /** How `MutatePlan` runs when its caller holds a live, matching contract:
      either the plan store refuses and nothing happens, or the write and the
      advance both happen. */
  lemma MutateDid(s: State, id: ActionId, version: nat, revision: nat, fields: Fields, now: Time)
    requires id in s.actions && now < s.actions[id].expiresAt
    requires s.actions[id].state == Running ==> s.actions[id].approver.Some?
    ensures var r := MutatePlan(s, id, version, revision, fields, now);
            && (r.result.Err? ==> r.state == s)
            && (r.result.Ok? ==>
                  var a, t := s.actions[id], r.state;
                  && a.state == Running && a.version == version && a.target in s.plans
                  && s.plans[a.target].revision == revision && Acceptable(s.plans[a.target], fields)
                  && id in t.actions
                  && t.actions[id] == a.(state := ExecutedPendingVerification, version := version + 1)
                  && a.target in t.plans && Update(s.plans[a.target], revision, fields, now) == Ok(t.plans[a.target])
                  && t == s.(actions := s.actions[id := t.actions[id]],
                             plans := s.plans[a.target := t.plans[a.target]],
                             log := s.log + [Write(a.target, By(id), Some(s.plans[a.target]), t.plans[a.target])],
                             outcomes := s.outcomes[id := MutationSucceeded])
                  && r.result.value == t.actions[id])
  {
    var r := MutatePlan(s, id, version, revision, fields, now);
    if s.actions[id].state == Running && s.actions[id].version == version {
      var u := UpdatePlan(s, id, s.actions[id].target, revision, fields, now);
      if u.result.Ok? {
        assert Advance(s.actions[id], ExecutedPendingVerification, Some(now), Some(s.actions[id].requester)).Ok?;
      }
    }
  }

  /** `t` is `s` after a write of the authorized mutation, with the advance
      that goes with it. */
  predicate Written(s: State, t: State, id: ActionId, w: Write)
    requires id in s.actions && id in s.decisions
  {
    var a := s.actions[id];
    && a.state == Running && a.operation == UpdateProjectPlan
    && w.author == By(id) && w.target == a.target && w.target in s.plans
    && w.before == Some(s.plans[w.target]) && s.plans[w.target].revision == a.planRevision
    && WriteOk(w) && Carries(w.after, s.decisions[id].Mutation()) && w.after.updatedAt < a.expiresAt
    && t == s.(actions := s.actions[id := a.(state := ExecutedPendingVerification, version := a.version + 1)],
               plans := s.plans[w.target := w.after], log := s.log + [w], outcomes := t.outcomes)
  }

  lemma WriteEvolves(s: State, t: State, id: ActionId, w: Write)
    requires id in s.actions && id in s.decisions && Written(s, t, id, w)
    ensures Advanced(s, t, id) && Evolves(s, t)
  {
    assert t.log[|s.log|] == w;
    assert t.actions[id].Fixed() == s.actions[id].Fixed();
    assert LateWrite(s, t, w);
    forall x ensures IdEvolves(s, t, x) {}
    forall x ensures PlanEvolves(s, t, x) {}
  }

  lemma WriterOk(s: State, t: State, id: ActionId, w: Write)
    requires id in s.actions && ActionOk(s, id) && Written(s, t, id, w) && Advanced(s, t, id)
    requires w.before == Some(s.decisions[id].identity.targetDigest) && Logged(t.log, w.target, w.after)
    ensures ActionOk(t, id) && AuthoredOk(t, w) && Landed(t, t.actions[id], s.decisions[id].Mutation())
  {
    var a, b := s.actions[id], t.actions[id];
    assert b.Fixed() == a.Fixed();
    assert b.IndexKey() == a.IndexKey();
    LoggedGrows(s.log, t.log, a.target, s.decisions[id].identity.targetDigest);
    assert Landed(t, b, s.decisions[id].Mutation());
  }

  lemma WriteKeepsRecords(s: State, t: State, id: ActionId, w: Write)
    requires ActionsOk(s) && AuthorsOk(s) && SnapshotsOk(s) && id in s.actions && ActionOk(s, id)
             && Written(s, t, id, w)
    requires w.before == Some(s.decisions[id].identity.targetDigest) && Logged(t.log, w.target, w.after)
    ensures Evolves(s, t) && ActionsOk(t) && AuthorsOk(t) && SnapshotsOk(t)
    ensures Landed(t, t.actions[id], s.decisions[id].Mutation())
  {
    WriteEvolves(s, t, id, w);
    WriterOk(s, t, id, w);
    ActionsStayOk(s, t, id);
    assert t.log[|s.log|] == w;
    AuthorsStayOk(s, t);
    SnapshotsStayOk(s, t);
  }

  lemma WriteKeeps(s: State, t: State, id: ActionId, w: Write)
    requires Inv(s) && id in s.actions && ActionOk(s, id) && Written(s, t, id, w)
    ensures Keeps(s, t) && Landed(t, t.actions[id], s.decisions[id].Mutation())
  {
    AppendKeepsLog(s.plans, s.log, w);
    StoredIsAuthorized(s, id);
    WriteKeepsRecords(s, t, id, w);
    assert t.actions[id].Fixed() == s.actions[id].Fixed();
    IndexStaysOk(s, t, id);
  }

  lemma MutateWrites(s: State, id: ActionId, version: nat, now: Time)
    requires id in s.actions && id in s.decisions && now < s.actions[id].expiresAt
    requires s.actions[id].operation == UpdateProjectPlan && s.actions[id].target in s.plans
    requires s.actions[id].state == Running ==> s.actions[id].approver.Some?
    requires var p := s.plans[s.actions[id].target];
             p.target == s.actions[id].target && p.environment == Staging && p.revision >= 1
    ensures var a := s.actions[id];
            var r := MutatePlan(s, id, version, a.planRevision, s.decisions[id].Mutation(), now);
            && (r.result.Err? ==> r.state == s)
            && (r.result.Ok? ==>
                  && a.target in r.state.plans
                  && Written(s, r.state, id, Write(a.target, By(id), Some(s.plans[a.target]), r.state.plans[a.target])))
  {
    MutateDid(s, id, version, s.actions[id].planRevision, s.decisions[id].Mutation(), now);
  }

  lemma StoredIsStaging(s: State, t: Target)
    requires LogOk(s.plans, s.log) && t in s.plans
    ensures s.plans[t].target == t && s.plans[t].environment == Staging && s.plans[t].revision >= 1
  {
    assert StoredOk(s.plans, s.log, t);
    LoggedIsStaging(s.plans, s.log, t, s.plans[t]);
  }

  /** The executor's mutation: authorized revision, requested fields, in time. */
  lemma MutateKeeps(s: State, id: ActionId, version: nat, now: Time)
    requires Inv(s) && id in s.actions && id in s.decisions && now < s.actions[id].expiresAt
    requires s.actions[id].operation == UpdateProjectPlan
    ensures var r := MutatePlan(s, id, version, s.actions[id].planRevision, s.decisions[id].Mutation(), now);
            && Keeps(s, r.state)
            && (r.result.Ok? ==>
                  id in r.state.actions && Landed(r.state, r.state.actions[id], s.decisions[id].Mutation()))
  {
    var a, fields := s.actions[id], s.decisions[id].Mutation();
    var r := MutatePlan(s, id, version, a.planRevision, fields, now);
    assert ActionOk(s, id);
    LoggedIsStaging(s.plans, s.log, a.target, s.decisions[id].identity.targetDigest);
    StoredIsStaging(s, a.target);
    MutateWrites(s, id, version, now);
    if r.result.Err? { EvolvesRefl(s); return; }
    WriteKeeps(s, r.state, id, Write(a.target, By(id), Some(s.plans[a.target]), r.state.plans[a.target]));
  }

  /** A new target disturbs nothing that was there. */
  lemma CreateEvolves(s: State, p: ProjectPlan)
    requires CreatePlan(s, p).result.Ok?
    ensures Evolves(s, CreatePlan(s, p).state)
  {
    var t := CreatePlan(s, p).state;
    assert t.log[|s.log|] == Write(p.target, Creator, None, p);
  }

  lemma CreateKeeps(s: State, p: ProjectPlan)
    requires Inv(s) && p.revision == 1
    ensures Keeps(s, CreatePlan(s, p).state)
  {
    var t := CreatePlan(s, p).state;
    if CreatePlan(s, p).result.Err? { EvolvesRefl(s); return; }
    CreateKeepsValid(s, p);
    CreateEvolves(s, p);
    assert t.log[|s.log|].author == Creator;
    forall id | id in t.actions ensures ActionOk(t, id) {
      assert ActionOk(s, id);
      UntouchedStaysOk(s, t, id);
    }
    AuthorsStayOk(s, t);
    SnapshotsStayOk(s, t);
  }

  // ----- registration -----------------------------------------------------

  /** What a registering call read and refers to. */
  ghost predicate CallOk(s: State, k: Call, refs: Option<Refs>) {
    && (k.seen.Some? ==> Logged(s.log, k.seen.value.target, k.seen.value))
    && match refs
       case None => k.request.operation == UpdateProjectPlan
       case Some(f) =>
         && k.request.operation == RollbackProjectPlan && f.original in s.actions
         && s.actions[f.original].operation == UpdateProjectPlan
         && s.actions[f.original].target == k.request.target && k.request.token == f.original
  }

  lemma FreshActionOk(s: State, t: State, k: Call, refs: Option<Refs>, d: Decision)
    requires Inv(s) && CallOk(s, k, refs) && Judge(k) == Allowed(d) && d.identity.actionId !in s.actions
    requires var id := d.identity.actionId;
             var a := FreshAction(d, refs).(state := ConfirmationRequired, version := 2);
             t.actions == s.actions[id := a] && t.decisions == s.decisions[id := d]
             && t.log == s.log && t.plans == s.plans && t.leases == s.leases
    ensures ActionOk(t, d.identity.actionId)
  {
    var id := d.identity.actionId;
    assert id !in s.leases;
    var p := k.seen.value;
    LoggedIsStaging(s.plans, s.log, p.target, p);
    if k.request.operation == RollbackProjectPlan {
      assert d.Mutation().Keys == {};
      assert d.Mutation() == map[];
    }
  }

  lemma RegisteredActionsOk(s: State, t: State, id: ActionId)
    requires ActionsOk(s) && Evolves(s, t) && id in t.actions && t.actions == s.actions[id := t.actions[id]]
    requires t.leases == s.leases && ActionOk(t, id)
    ensures ActionsOk(t)
  {
    forall x | x in t.actions ensures ActionOk(t, x) {
      if x != id { assert ActionOk(s, x); UntouchedStaysOk(s, t, x); }
    }
  }

  /** A freshly registered action joins a store that is otherwise unchanged. */
  lemma RegisteredKeeps(s: State, t: State, id: ActionId, key: Key)
    requires Inv(s) && id !in s.actions && key !in s.index && id in t.actions && id in t.decisions
    requires t.actions == s.actions[id := t.actions[id]] && t.decisions == s.decisions[id := t.decisions[id]]
    requires t.index == s.index[key := id] && t.actions[id].id == id && t.actions[id].IndexKey() == key
    requires t == s.(actions := t.actions, decisions := t.decisions, index := t.index)
    requires ActionOk(t, id)
    ensures Keeps(s, t)
  {
    RegisterEvolves(s, t, id, key);
    RegisteredActionsOk(s, t, id);
    AuthorsStayOk(s, t);
    SnapshotsStayOk(s, t);
    forall c | c in t.bindings ensures BindingOk(t.decisions, t.bindings[c]) {
      assert BindingOk(s.decisions, s.bindings[c]);
    }
  }

  lemma AuthorizeKeeps(s: State, k: Call, refs: Option<Refs>)
    requires Inv(s) && CallOk(s, k, refs)
    ensures Keeps(s, Authorize(s, k, refs).state)
  {
    var r := Authorize(s, k, refs);
    if !(r.result.Ok? && r.result.value.Allowed? && FindByKey(s, k.request.IndexKey()).None?) {
      assert r.state == s;
      EvolvesRefl(s);
      return;
    }
    RegisteredWindow(s, k, refs);
    var d := r.result.value.decision;
    FreshActionOk(s, r.state, k, refs, d);
    RegisteredKeeps(s, r.state, d.identity.actionId, k.request.IndexKey());
  }

  lemma RegisterEvolves(s: State, t: State, id: ActionId, key: Key)
    requires Inv(s) && id !in s.actions && key !in s.index && id in t.actions && id in t.decisions
    requires t.actions == s.actions[id := t.actions[id]] && t.decisions == s.decisions[id := t.decisions[id]]
    requires t.index == s.index[key := id] && t.actions[id].id == id && t.actions[id].IndexKey() == key
    requires t == s.(actions := t.actions, decisions := t.decisions, index := t.index)
    ensures Evolves(s, t) && IndexOk(t.actions, t.index)
  {
    assert id !in s.decisions;
    forall x ensures IdEvolves(s, t, x) {}
  }
}
