/** The in-memory repository as an object: its dictionaries are fields, its
    methods update them in place (control_plane/action_state.py), and each
    method is tied to the composite of `Store` that specifies it. */
module Repository {
  import opened Types
  import opened Lifecycle
  import opened Plans
  import opened KillSwitch
  import S = Store
  import C = Commands

  class ActionRepository {
    const maxRecords: nat
    var actions: map<ActionId, Action>
    var decisions: map<ActionId, S.Decision>
    var index: map<Key, ActionId>
    var bindings: map<S.ConfirmationId, S.Binding>
    var snapshots: seq<S.Snapshot>
    var leases: map<ActionId, S.Lease>
    var outcomes: map<ActionId, Outcome>
    var evidence: map<ActionId, S.Contract>
    var plans: map<Target, ProjectPlan>
    ghost var log: seq<S.Write>
    var switches: Switches

    ghost function State(): S.State
      reads this
    {
      S.State(maxRecords, actions, decisions, index, bindings, snapshots, leases, outcomes, evidence,
              plans, log, switches)
    }

    /** What the checks read: everything but the log, which only proofs see. */
    function View(): S.State
      reads this
    {
      S.State(maxRecords, actions, decisions, index, bindings, snapshots, leases, outcomes, evidence,
              plans, [], switches)
    }

    /** The index agrees with a scan of the actions, and the plan store with
        the log of its writes. */
    ghost predicate Valid()
      reads this
    {
      S.IndexOk(actions, index) && S.LogOk(plans, log) && KillSwitch.WellFormed(switches)
    }

    constructor (max: nat, now: Time)
      ensures Valid() && State() == S.Initial(max, now)
    {
      maxRecords := max;
      actions, decisions, index, bindings := map[], map[], map[], map[];
      snapshots, leases, outcomes, evidence := [], map[], map[], map[];
      plans, log, switches := map[], [], Seeded(now);
    }

    method CreatePlan(target: Target, env: Environment, title: string, objective: string, now: Time, enabled: bool)
      returns (r: Result<ProjectPlan>)
      requires Valid()
      modifies this
      ensures var p := S.NewPlan(target, env, title, objective, now, enabled);
              S.Reply(State(), r) == if p.Ok? then S.CreatePlan(old(State()), p.value) else S.Reply(old(State()), p)
      ensures Valid()
    {
      r := S.NewPlan(target, env, title, objective, now, enabled);
      if r.Err? { return; }
      S.CreateKeepsValid(State(), r.value);
      if target in plans { return Err(PlanRefused); }
      plans, log := plans[target := r.value], log + [S.Write(target, S.Creator, None, r.value)];
    }

    method RegisterAction(d: S.Decision, a: Action) returns (r: Result<()>)
      requires Valid()
      modifies this
      ensures S.Reply(State(), r) == S.RegisterAction(old(State()), d, a)
      ensures Valid()
    {
      C.RegisterKeepsValid(State(), d, a);
      if !S.Coherent(d, a) { return Err(StorageCorrupt); }
      var key := a.IndexKey();
      if key in index {
        return if index[key] == a.id then Ok(()) else Err(IdempotencyConflict);
      }
      if a.id in actions { return Err(StorageCorrupt); }
      if |actions| >= maxRecords { return Err(InvalidRequest); }
      decisions := decisions[a.id := d];
      actions := actions[a.id := a];
      index := index[key := a.id];
      r := Ok(());
    }

    method FindByKey(key: Key) returns (r: Option<Action>)
      requires Valid()
      ensures r.Some? <==> exists id :: id in actions && actions[id].IndexKey() == key
      ensures r.Some? ==> r.value.id in actions && actions[r.value.id] == r.value && r.value.IndexKey() == key
    {
      if key in index { r := Some(actions[index[key]]); } else { r := None; }
    }

    method AdvanceAction(id: ActionId, version: nat, next: LifecycleState, actor: Subject, now: Time)
      returns (r: Result<Action>)
      requires Valid()
      modifies this`actions
      ensures S.Reply(State(), r) == S.AdvanceAction(old(State()), id, version, next, actor, now)
      ensures Valid()
    {
      S.AdvanceKeepsValid(State(), id, version, next, actor, now);
      if id !in actions { return Err(StorageCorrupt); }
      var current := actions[id];
      if current.version != version { return Err(StateConflict); }
      r := Advance(current, next, Some(now), Some(actor));
      if r.Ok? { actions := actions[id := r.value]; }
    }

    method SnapshotFor(id: ActionId) returns (r: Option<S.Snapshot>)
      ensures r == S.SnapshotFor(State(), id)
    {
      var i := 0;
      while i < |snapshots|
        invariant 0 <= i <= |snapshots|
        invariant S.FirstSnapshot(snapshots, id) == S.FirstSnapshot(snapshots[i..], id)
      {
        if snapshots[i].actionId == id { return Some(snapshots[i]); }
        i := i + 1;
      }
      r := None;
    }

    method CaptureSnapshot(snap: S.Snapshot, id: ActionId, version: nat, now: Time) returns (r: Result<Action>)
      requires Valid()
      modifies this`actions, this`snapshots
      ensures S.Reply(State(), r) == S.CaptureSnapshot(old(State()), snap, id, version, now)
      ensures Valid()
    {
      if snap.actionId != id { r := Err(StorageCorrupt); }
      else if id !in actions || snap.revision != actions[id].planRevision { r := Err(StaleEvidence); }
      else if actions[id].state != Confirmed { r := Err(StateConflict); }
      else {
        r := AdvanceAction(id, version, SnapshotCaptured, actions[id].requester, now);
        if r.Ok? { snapshots := snapshots + [snap]; }
      }
    }

    method MarkOutcome(id: ActionId, version: nat, outcome: Outcome) returns (r: Result<Action>)
      requires Valid()
      modifies this`outcomes
      ensures S.Reply(State(), r) == S.MarkOutcome(old(State()), id, version, outcome)
      ensures Valid()
    {
      if id !in actions { return Err(StorageCorrupt); }
      if actions[id].version != version { return Err(StateConflict); }
      if id in outcomes && outcomes[id] == UnknownOutcome && outcome == MutationNotStarted {
        return Err(StateConflict);
      }
      outcomes := outcomes[id := outcome];
      r := Ok(actions[id]);
    }

    method BindEvidence(id: ActionId, digest: S.Contract) returns (r: Result<()>)
      requires Valid()
      modifies this`evidence
      ensures S.Reply(State(), r) == S.BindEvidence(old(State()), id, digest)
      ensures Valid()
    {
      if id in evidence {
        return if evidence[id] == digest then Ok(()) else Err(StorageCorrupt);
      }
      evidence := evidence[id := digest];
      r := Ok(());
    }

    method AcquireLease(id: ActionId, version: nat, leaseId: LeaseId, now: Time) returns (r: Result<Action>)
      requires Valid()
      modifies this`actions, this`leases
      ensures S.Reply(State(), r) == S.AcquireLease(old(State()), id, version, leaseId, now)
      ensures Valid()
    {
      if id !in actions { r := Err(StorageCorrupt); }
      else if actions[id].state != SnapshotCaptured { r := Err(StateConflict); }
      else if actions[id].version != version { r := Err(StateConflict); }
      else if actions[id].IsExpired(now) { r := Err(ExpiredPlan); }
      else if id in leases && leases[id].granted && leases[id].expiresAt > now { r := Err(StateConflict); }
      else { r := Grant(id, version, leaseId, now); }
    }

    /** The part of `AcquireLease` that writes. */
    method Grant(id: ActionId, version: nat, leaseId: LeaseId, now: Time) returns (r: Result<Action>)
      requires Valid() && id in actions && actions[id].state == SnapshotCaptured && actions[id].version == version
      requires now < actions[id].expiresAt && S.ActiveLease(State(), id, now).None?
      modifies this`actions, this`leases
      ensures S.Reply(State(), r) == S.AcquireLease(old(State()), id, version, leaseId, now)
      ensures Valid()
    {
      var token := if id in leases then leases[id].fencingToken + 1 else 1;
      r := AdvanceAction(id, version, Leased, actions[id].requester, now);
      LeaseIsAdvance(old(State()), id, version, leaseId, now, S.Reply(State(), r));
      if r.Ok? {
        leases := leases[id := S.Lease(leaseId, id, token, true, now, now + LEASE_TTL, r.value.version)];
      }
    }

    method ReleaseLease(id: ActionId, leaseId: LeaseId, fencingToken: nat) returns (done: bool)
      requires Valid()
      modifies this`leases
      ensures S.Reply(State(), Ok(done)) == S.ReleaseLease(old(State()), id, leaseId, fencingToken)
      ensures Valid()
    {
      if id !in leases || leases[id].id != leaseId || leases[id].fencingToken != fencingToken { return false; }
      leases := leases[id := leases[id].(granted := false)];
      done := true;
    }

    method BeginExecution(id: ActionId, version: nat, cid: S.ConfirmationId, now: Time) returns (r: Result<Action>)
      requires Valid()
      modifies this`actions, this`bindings
      ensures S.Reply(State(), r) == S.BeginExecution(old(State()), id, version, cid, now)
      ensures Valid()
    {
      if id !in actions { r := Err(StorageCorrupt); }
      else if actions[id].state != Leased { r := Err(StateConflict); }
      else if actions[id].version != version { r := Err(StateConflict); }
      else if cid !in bindings || bindings[cid].state != S.BindingConfirmed { r := Err(ConfirmationMismatch); }
      else {
        r := AdvanceAction(id, version, Running, actions[id].requester, now);
        if r.Ok? { bindings := bindings[cid := bindings[cid].(state := S.BindingConsumed)]; }
      }
    }

    method UpdatePlan(ghost author: ActionId, target: Target, revision: nat, fields: Fields, now: Time)
      returns (r: Result<ProjectPlan>)
      requires Valid()
      modifies this`plans, this`log
      ensures S.Reply(State(), r) == S.UpdatePlan(old(State()), author, target, revision, fields, now)
      ensures Valid()
    {
      S.UpdateKeepsValid(State(), author, target, revision, fields, now);
      if target !in plans { return Err(PlanRefused); }
      var before := plans[target];
      r := Update(before, revision, fields, now);
      if r.Ok? {
        plans := plans[target := r.value];
        log := log + [S.Write(target, S.By(author), Some(before), r.value)];
      }
    }

    method MutatePlan(id: ActionId, version: nat, revision: nat, fields: Fields, now: Time) returns (r: Result<Action>)
      requires Valid()
      modifies this`plans, this`log, this`actions, this`outcomes
      ensures S.Reply(State(), r) == S.MutatePlan(old(State()), id, version, revision, fields, now)
      ensures Valid()
    {
      if id !in actions { r := Err(StorageCorrupt); }
      else if actions[id].state != Running { r := Err(StateConflict); }
      else if actions[id].version != version { r := Err(StateConflict); }
      else {
        var updated := UpdatePlan(id, actions[id].target, revision, fields, now);
        ghost var u := S.Reply(State(), updated);
        if updated.Err? { r := Err(StaleEvidence); }
        else {
          r := AdvanceAction(id, version, ExecutedPendingVerification, actions[id].requester, now);
          MutateIsTwoSteps(old(State()), id, version, revision, fields, now, u, S.Reply(State(), r));
          if r.Ok? { outcomes := outcomes[id := MutationSucceeded]; }
        }
      }
    }

    method RecordVerification(id: ActionId, version: nat, success: bool, now: Time) returns (r: Result<Action>)
      requires Valid()
      modifies this`actions, this`outcomes
      ensures S.Reply(State(), r) == S.RecordVerification(old(State()), id, version, success, now)
      ensures Valid()
    {
      if id !in actions { r := Err(StorageCorrupt); }
      else if actions[id].state != ExecutedPendingVerification { r := Err(StateConflict); }
      else if actions[id].version != version { r := Err(StateConflict); }
      else {
        var target := if success then VerifiedSuccess else VerificationFailed;
        r := AdvanceAction(id, version, target, actions[id].requester, now);
        if r.Ok? { outcomes := outcomes[id := if success then ReadBackSucceeded else ReadBackFailed]; }
      }
    }

    method MarkReconciled(id: ActionId, version: nat, to: LifecycleState, outcome: Outcome, now: Time)
      returns (r: Result<Action>)
      requires Valid()
      modifies this`actions, this`outcomes
      ensures S.Reply(State(), r) == S.MarkReconciled(old(State()), id, version, to, outcome, now)
      ensures Valid()
    {
      if id !in actions { return Err(StorageCorrupt); }
      var current := actions[id];
      if current.version != version { return Err(StateConflict); }
      r := AdvanceAction(id, version, to, current.requester, now);
      ReconcileIsAdvance(old(State()), id, version, to, outcome, now, S.Reply(State(), r));
      if r.Ok? { outcomes := outcomes[id := outcome]; }
    }

    method AdvanceRollback(id: ActionId, version: nat, from: set<LifecycleState>, to: LifecycleState, now: Time)
      returns (r: Result<Action>)
      requires Valid()
      modifies this`actions
      ensures S.Reply(State(), r) == S.AdvanceRollback(old(State()), id, version, from, to, now)
      ensures Valid()
    {
      if id !in actions { return Err(StorageCorrupt); }
      var current := actions[id];
      if current.state !in from { return Err(StateConflict); }
      if current.version != version { return Err(StateConflict); }
      r := AdvanceAction(id, version, to, current.requester, now);
    }

    method ConfirmAndAdvance(b: S.Binding, id: ActionId, version: nat, approver: Subject, now: Time)
      returns (r: Result<Action>)
      requires Valid()
      modifies this`actions, this`bindings
      ensures S.Reply(State(), r) == S.ConfirmAndAdvance(old(State()), b, id, version, approver, now)
      ensures Valid()
    {
      if b.actionId != id { return Err(ConfirmationMismatch); }
      bindings := bindings[b.id := b.(state := S.BindingConfirmed)];
      r := AdvanceAction(id, version, Confirmed, approver, now);
    }
  }

  /** What is left of leasing once the advance has been made. */
  lemma LeaseIsAdvance(s: S.State, id: ActionId, version: nat, leaseId: LeaseId, now: Time, a: S.Reply<Action>)
    requires id in s.actions && s.actions[id].state == SnapshotCaptured && s.actions[id].version == version
    requires now < s.actions[id].expiresAt && S.ActiveLease(s, id, now).None?
    requires a == S.AdvanceAction(s, id, version, Leased, s.actions[id].requester, now)
    ensures S.AcquireLease(s, id, version, leaseId, now) ==
      if a.result.Err? then a
      else
        var lease := S.Lease(leaseId, id, S.NextToken(s, id), true, now, now + LEASE_TTL, a.result.value.version);
        S.Reply(a.state.(leases := s.leases[id := lease]), a.result)
  {
  }

  lemma ReconcileIsAdvance(s: S.State, id: ActionId, version: nat, to: LifecycleState, outcome: Outcome, now: Time,
                           a: S.Reply<Action>)
    requires id in s.actions && s.actions[id].version == version
    requires a == S.AdvanceAction(s, id, version, to, s.actions[id].requester, now)
    ensures S.MarkReconciled(s, id, version, to, outcome, now) ==
      if a.result.Err? then a else S.Reply(a.state.(outcomes := s.outcomes[id := outcome]), a.result)
  {
  }

  lemma MutateIsTwoSteps(s: S.State, id: ActionId, version: nat, revision: nat, fields: Fields, now: Time,
                         u: S.Reply<ProjectPlan>, a: S.Reply<Action>)
    requires id in s.actions && s.actions[id].state == Running && s.actions[id].version == version
    requires u == S.UpdatePlan(s, id, s.actions[id].target, revision, fields, now) && u.result.Ok?
    requires a == S.AdvanceAction(u.state, id, version, ExecutedPendingVerification, s.actions[id].requester, now)
    ensures S.MutatePlan(s, id, version, revision, fields, now) ==
      if a.result.Err? then a else S.Reply(a.state.(outcomes := s.outcomes[id := MutationSucceeded]), a.result)
  {
  }
}
