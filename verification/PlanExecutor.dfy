/** The executor as an object driving ordered writes on one repository
    (control_plane/executor.py); each verb is tied to its function in
    `Executor`. */
module PlanExecutor {
  import opened Types
  import opened Lifecycle
  import opened Plans
  import opened KillSwitch
  import opened Repository
  import S = Store
  import G = Gate
  import X = Executor
  import I = Invariant
  import A = Alone
  import N = Conditions

  /** An error leaves every plan as it was; a success reported for an action that
      was LEASED is the finished execution, with the plan replaced by its next
      revision. */
  predicate Ended(s: S.State, t: S.State, c: S.Contract, now: Time, r: Result<X.Done>) {
    && (r.Err? ==> t.plans == s.plans && t.log == s.log)
    && (r.Ok? && c.actionId in s.actions && s.actions[c.actionId].state == Leased ==>
          && A.Admissible(s, c, now) && A.NextPlan(s, c, now).Ok?
          && t == A.Finished(s, c, A.NextPlan(s, c, now).value))
  }

  lemma EndedAlone(s: S.State, c: S.Contract, now: Time, r: S.Reply<X.Done>)
    requires A.RanAlone(s, c, now, r)
    ensures Ended(s, r.state, c, now, r.result)
  {
  }

  lemma ExecuteEnds(s: S.State, c: S.Contract, now: Time)
    requires I.Inv(s)
    ensures var r := X.Execute(s, c, now); Ended(s, r.state, c, now, r.result)
  {
    A.ExecuteAlone(s, c, now);
    EndedAlone(s, c, now, X.Execute(s, c, now));
  }

  /** The original's pre-mutation content is back. */
  predicate UndoneBy(s: S.State, t: S.State, rid: ActionId, oid: ActionId, now: Time) {
    S.SnapshotFor(s, oid).Some? && A.Undone(s, t, rid, oid, S.SnapshotFor(s, oid).value, now)
  }

  lemma RollbackEnds(s: S.State, rid: ActionId, oid: ActionId, cid: S.ConfirmationId, leaseId: LeaseId, now: Time)
    ensures var r := X.ExecuteRollback(s, rid, oid, cid, leaseId, now);
            A.Orderly(s) && r.result == Ok(X.Done(RollbackSucceeded, RolledBack)) ==>
              UndoneBy(s, r.state, rid, oid, now)
  {
    var r := X.ExecuteRollback(s, rid, oid, cid, leaseId, now);
    if A.Orderly(s) && r.result == Ok(X.Done(RollbackSucceeded, RolledBack)) {
      A.RollbackUndoes(s, rid, oid, cid, leaseId, now);
    }
  }

  class BoundedExecutor {
    const repository: ActionRepository

    constructor (r: ActionRepository)
      ensures repository == r
    {
      repository := r;
    }

    /** Everything up to and including the start of execution. */
    method Prepare(c: S.Contract, now: Time) returns (r: Result<Option<nat>>)
      requires repository.Valid()
      modifies repository
      ensures S.Reply(repository.State(), r) == X.Prepare(old(repository.State()), c, now)
      ensures r.Err? && r.error.Refused? ==> N.Fault(old(repository.State()), c, now, r.error.reason)
      ensures repository.Valid()
    {
      N.RefusalNamesFault(repository.State(), c, now);
      WorldIgnoresLog(repository.State(), c, now);
      var world := X.ValidateWorld(repository.View(), c, now);
      if world.Err? { return Err(world.error); }
      var seen := world.value.state;
      if seen == Leased {
        var bound := repository.BindEvidence(c.actionId, c);
        if bound.Err? { return Err(bound.error); }
        GateIgnoresLog(repository.State(), c, now);
        var code := G.Evaluate(repository.View(), c, now);
        if code != GateAllowed { return Err(Refused(GateDenied(code))); }
      }
      if seen == VerifiedSuccess { return Ok(None); }
      PreconditionsIgnoreLog(repository.State(), c, seen, now);
      var checks := X.Preconditions(repository.View(), c, seen, now);
      if checks.Err? { return Err(checks.error); }
      if seen != Leased { return Ok(Some(world.value.version)); }
      var begun := repository.BeginExecution(c.actionId, world.value.version, c.confirmationId, now);
      r := if begun.Err? then Err(begun.error) else Ok(Some(begun.value.version));
    }

    method Mutate(c: S.Contract, version: nat, now: Time) returns (r: Result<nat>)
      requires repository.Valid()
      modifies repository
      ensures S.Reply(repository.State(), r) == X.Mutate(old(repository.State()), c, version, now)
      ensures repository.Valid()
    {
      if c.actionId !in repository.actions { return Err(Refused(ActionMissing)); }
      var a := repository.actions[c.actionId];
      if a.state == Running {
        var mutated := repository.MutatePlan(c.actionId, version, c.expectedRevision, c.fields, now);
        r := if mutated.Err? then Err(mutated.error) else Ok(mutated.value.version);
      } else if a.state == ExecutedPendingVerification {
        r := Ok(a.version);
      } else {
        r := Err(Refused(InvalidLifecycleState));
      }
    }

    method Conclude(c: S.Contract, version: nat, now: Time) returns (r: Result<X.Done>)
      requires repository.Valid()
      modifies repository
      ensures S.Reply(repository.State(), r) == X.Conclude(old(repository.State()), c, version, now)
      ensures repository.Valid()
    {
      if c.target !in repository.plans { return Err(PlanRefused); }
      var success := X.ReadBack(c, repository.plans[c.target]);
      var recorded := repository.RecordVerification(c.actionId, version, success, now);
      if recorded.Err? { return Err(recorded.error); }
      var released := repository.ReleaseLease(c.actionId, c.leaseId, c.fencingToken);
      r := Ok(X.Done(if success then ReadBackSucceeded else ReadBackFailed, recorded.value.state));
    }

    method Execute(c: S.Contract, now: Time) returns (r: Result<X.Done>)
      requires repository.Valid()
      modifies repository
      ensures S.Reply(repository.State(), r) == X.Execute(old(repository.State()), c, now)
      ensures I.Inv(old(repository.State())) ==> Ended(old(repository.State()), repository.State(), c, now, r)
      ensures repository.Valid()
    {
      if I.Inv(repository.State()) { ExecuteEnds(repository.State(), c, now); }
      var ready := Prepare(c, now);
      if ready.Err? { return Err(ready.error); }
      if ready.value.None? { return Ok(X.Done(ReadBackSucceeded, VerifiedSuccess)); }
      var mutated := Mutate(c, ready.value.value, now);
      if mutated.Err? { return Err(mutated.error); }
      r := Conclude(c, mutated.value, now);
    }

    /** Records a conclusion. */
    method Settle(c: S.Contract, version: nat, verdict: Outcome, now: Time) returns (r: Result<Outcome>)
      requires repository.Valid()
      modifies repository
      ensures S.Reply(repository.State(), r) == X.Settle(old(repository.State()), c, version, verdict, now)
      ensures repository.Valid()
    {
      if verdict == MutationSucceeded {
        var done := repository.MarkReconciled(c.actionId, version, ExecutedPendingVerification, MutationSucceeded, now);
        r := if done.Err? then Err(done.error) else Ok(MutationSucceeded);
      } else if verdict == MutationNotStarted {
        var done := repository.MarkReconciled(c.actionId, version, ReconciliationRequired, MutationNotStarted, now);
        r := if done.Err? then Err(done.error) else Ok(MutationNotStarted);
      } else {
        r := Ok(UnknownOutcome);
      }
    }

    method Reconcile(c: S.Contract, now: Time, reply: Option<X.ReceiptReply>) returns (r: Result<X.Reconciled>)
      requires repository.Valid()
      modifies repository
      ensures S.Reply(repository.State(), r) == X.Reconcile(old(repository.State()), c, now, reply)
      ensures N.Reconciles(old(repository.State()), repository.State(), c, now, reply, r)
      ensures c.actionId in old(repository.actions) && c.actionId in old(repository.outcomes)
              && old(repository.outcomes)[c.actionId] != UnknownOutcome ==>
                r == Ok(X.Reconciled(old(repository.outcomes)[c.actionId], None))
      ensures repository.Valid()
    {
      N.ReconcileAnswers(repository.State(), c, now, reply);
      if c.actionId !in repository.actions { return Err(Refused(ActionMissing)); }
      if c.actionId !in repository.outcomes { return Err(InvalidRequest); }
      if repository.outcomes[c.actionId] != UnknownOutcome {
        return Ok(X.Reconciled(repository.outcomes[c.actionId], None));
      }
      if c.target !in repository.plans { return Err(PlanRefused); }
      var verdict := X.Classify(c, repository.plans[c.target]);
      var note := if verdict == UnknownOutcome then X.ReceiptStatus(repository.View(), c, reply) else None;
      var done := Settle(c, repository.actions[c.actionId].version, verdict, now);
      r := if done.Err? then Err(done.error) else Ok(X.Reconciled(done.value, note));
    }

    method OpenRollback(rid: ActionId, cid: S.ConfirmationId, leaseId: LeaseId, now: Time)
      returns (r: Result<S.Contract>)
      requires rid in repository.actions
      requires repository.Valid()
      modifies repository
      ensures S.Reply(repository.State(), r) == X.OpenRollback(old(repository.State()), rid, cid, leaseId, now)
      ensures repository.Valid()
    {
      if repository.actions[rid].state == SnapshotCaptured {
        var leased := repository.AcquireLease(rid, repository.actions[rid].version, leaseId, now);
        if leased.Err? { return Err(leased.error); }
      }
      AdmissionIgnoresLog(repository.State(), rid, cid, now);
      r := X.AdmitRollback(repository.View(), rid, cid, now);
      if r.Err? { return; }
      var bound := repository.BindEvidence(rid, r.value);
      if bound.Err? { return Err(bound.error); }
      if repository.actions[rid].state == Leased {
        var begun := repository.BeginExecution(rid, r.value.actionVersion, r.value.confirmationId, now);
        if begun.Err? { return Err(begun.error); }
      }
    }

    method Restore(rid: ActionId, original: Action, fields: Fields, now: Time) returns (r: Result<nat>)
      requires rid in repository.actions
      requires repository.Valid()
      modifies repository
      ensures S.Reply(repository.State(), r) == X.Restore(old(repository.State()), rid, original, fields, now)
      ensures repository.Valid()
    {
      var a := repository.actions[rid];
      if a.target !in repository.plans { return Err(PlanRefused); }
      var revision := repository.plans[a.target].revision;
      if revision != original.planRevision + 1 { return Err(Refused(StalePlan)); }
      if a.state != Running { return Ok(a.version); }
      var restored := repository.MutatePlan(rid, a.version, revision, fields, now);
      r := if restored.Err? then Err(restored.error) else Ok(restored.value.version);
    }

    method ConcludeRollback(c: S.Contract, oid: ActionId, originalVersion: nat, snap: S.Snapshot, version: nat,
                            now: Time)
      returns (r: Result<X.Done>)
      requires c.actionId in repository.actions
      requires repository.Valid()
      modifies repository
      ensures S.Reply(repository.State(), r) ==
              X.ConcludeRollback(old(repository.State()), c, oid, originalVersion, snap, version, now)
      ensures repository.Valid()
    {
      var a := repository.actions[c.actionId];
      if a.target !in repository.plans { return Err(PlanRefused); }
      var success := X.RestoredOk(a, snap, repository.plans[a.target]);
      var recorded := repository.RecordVerification(c.actionId, version, success, now);
      if recorded.Err? { return Err(recorded.error); }
      var finished := repository.AdvanceRollback(oid, originalVersion, {RollbackRequested},
                                                 if success then RolledBack else RollbackFailed, now);
      if finished.Err? { return Err(finished.error); }
      var released := repository.ReleaseLease(c.actionId, c.leaseId, c.fencingToken);
      r := Ok(if success then X.Done(RollbackSucceeded, RolledBack) else X.Done(RollbackDidFail, recorded.value.state));
    }

    method ExecuteRollback(rid: ActionId, oid: ActionId, cid: S.ConfirmationId, leaseId: LeaseId, now: Time)
      returns (r: Result<X.Done>)
      requires repository.Valid()
      modifies repository
      ensures S.Reply(repository.State(), r) == X.ExecuteRollback(old(repository.State()), rid, oid, cid, leaseId, now)
      ensures A.Orderly(old(repository.State())) && r == Ok(X.Done(RollbackSucceeded, RolledBack)) ==>
                UndoneBy(old(repository.State()), repository.State(), rid, oid, now)
      ensures repository.Valid()
    {
      RollbackEnds(repository.State(), rid, oid, cid, leaseId, now);
      assert X.RollbackChecks(repository.View(), rid, oid, now) == X.RollbackChecks(repository.State(), rid, oid, now);
      var checks := X.RollbackChecks(repository.View(), rid, oid, now);
      if checks.Err? { return Err(checks.error); }
      var original := repository.actions[oid];
      var started := OpenRollback(rid, cid, leaseId, now);
      if started.Err? { return Err(started.error); }
      var snap := repository.SnapshotFor(oid);
      if snap.None? { return Err(Refused(SnapshotMissing)); }
      var restored := Restore(rid, original, G.RestoreFields(snap.value), now);
      if restored.Err? { return Err(restored.error); }
      r := ConcludeRollback(started.value, oid, original.version, snap.value, restored.value, now);
    }
  }

  lemma WorldIgnoresLog(s: S.State, c: S.Contract, now: Time)
    ensures X.ValidateWorld(s.(log := []), c, now) == X.ValidateWorld(s, c, now)
  {
  }

  lemma EvidenceIgnoresLog(s: S.State, c: S.Contract, now: Time)
    ensures G.EvaluateEvidence(s.(log := []), c, now) == G.EvaluateEvidence(s, c, now)
  {
  }

  lemma GateIgnoresLog(s: S.State, c: S.Contract, now: Time)
    ensures G.Evaluate(s.(log := []), c, now) == G.Evaluate(s, c, now)
  {
    EvidenceIgnoresLog(s, c, now);
  }

  lemma PreconditionsIgnoreLog(s: S.State, c: S.Contract, seen: LifecycleState, now: Time)
    ensures X.Preconditions(s.(log := []), c, seen, now) == X.Preconditions(s, c, seen, now)
  {
  }

  lemma AdmissionIgnoresLog(s: S.State, rid: ActionId, cid: S.ConfirmationId, now: Time)
    requires rid in s.actions
    ensures X.AdmitRollback(s.(log := []), rid, cid, now) == X.AdmitRollback(s, rid, cid, now)
  {
    var t := s.(log := []);
    assert X.ContractForRollback(t, rid, cid, now) == X.ContractForRollback(s, rid, cid, now);
    var built := X.ContractForRollback(s, rid, cid, now);
    if built.Ok? {
      GateIgnoresLog(s, built.value, now);
      assert X.ValidateLease(t, built.value, now) == X.ValidateLease(s, built.value, now);
    }
  }
}
