/** The repository under arbitrary callers: whatever calls are made on it, with
    whatever arguments and in whatever order, its index agrees with a scan of
    its actions and its plans agree with the log of their writes. */
module Commands {
  import opened Types
  import opened Lifecycle
  import opened Plans
  import opened KillSwitch
  import opened Store

  datatype Command =
    | DoCreatePlan(target: Target, env: Environment, title: string, objective: string, now: Time, enabled: bool)
    | DoUpdatePlan(author: ActionId, target: Target, revision: nat, fields: Fields, now: Time)
    | DoRegister(decision: Decision, action: Action)
    | DoAdvance(id: ActionId, version: nat, next: LifecycleState, actor: Subject, now: Time)
    | DoCapture(snap: Snapshot, id: ActionId, version: nat, now: Time)
    | DoMarkOutcome(id: ActionId, version: nat, outcome: Outcome)
    | DoBindEvidence(id: ActionId, contract: Contract)
    | DoAcquireLease(id: ActionId, version: nat, leaseId: LeaseId, now: Time)
    | DoReleaseLease(id: ActionId, leaseId: LeaseId, token: nat)
    | DoBegin(id: ActionId, version: nat, cid: ConfirmationId, now: Time)
    | DoMutate(id: ActionId, version: nat, revision: nat, fields: Fields, now: Time)
    | DoRecord(id: ActionId, version: nat, success: bool, now: Time)
    | DoMarkReconciled(id: ActionId, version: nat, next: LifecycleState, outcome: Outcome, now: Time)
    | DoAdvanceRollback(id: ActionId, version: nat, from: set<LifecycleState>, next: LifecycleState, now: Time)
    | DoConfirm(binding: Binding, id: ActionId, version: nat, actor: Subject, now: Time)
    | DoPutBinding(binding: Binding)
    | DoChangeSwitch(change: Change)

  function Do(s: State, c: Command): State {
    match c
    case DoCreatePlan(target, env, title, objective, now, enabled) =>
      var p := NewPlan(target, env, title, objective, now, enabled);
      if p.Ok? then CreatePlan(s, p.value).state else s
    case DoUpdatePlan(author, target, revision, fields, now) =>
      UpdatePlan(s, author, target, revision, fields, now).state
    case DoRegister(d, a) => RegisterAction(s, d, a).state
    case DoAdvance(id, version, next, actor, now) => AdvanceAction(s, id, version, next, actor, now).state
    case DoCapture(snap, id, version, now) => CaptureSnapshot(s, snap, id, version, now).state
    case DoMarkOutcome(id, version, outcome) => MarkOutcome(s, id, version, outcome).state
    case DoBindEvidence(id, contract) => BindEvidence(s, id, contract).state
    case DoAcquireLease(id, version, leaseId, now) => AcquireLease(s, id, version, leaseId, now).state
    case DoReleaseLease(id, leaseId, token) => ReleaseLease(s, id, leaseId, token).state
    case DoBegin(id, version, cid, now) => BeginExecution(s, id, version, cid, now).state
    case DoMutate(id, version, revision, fields, now) => MutatePlan(s, id, version, revision, fields, now).state
    case DoRecord(id, version, success, now) => RecordVerification(s, id, version, success, now).state
    case DoMarkReconciled(id, version, next, outcome, now) => MarkReconciled(s, id, version, next, outcome, now).state
    case DoAdvanceRollback(id, version, from, next, now) => AdvanceRollback(s, id, version, from, next, now).state
    case DoConfirm(b, id, version, actor, now) => ConfirmAndAdvance(s, b, id, version, actor, now).state
    case DoPutBinding(b) => PutBinding(s, b)
    case DoChangeSwitch(change) => s.(switches := Apply(s.switches, change))
  }

  function DoAll(s: State, cs: seq<Command>): State
    decreases |cs|
  {
    if cs == [] then s else Do(DoAll(s, cs[..|cs| - 1]), cs[|cs| - 1])
  }

  lemma AddedIsIndexed(actions: map<ActionId, Action>, index: map<Key, ActionId>, a: Action, key: Key)
    requires IndexOk(actions, index) && a.IndexKey() == key && key !in index && a.id !in actions
    ensures IndexOk(actions[a.id := a], index[key := a.id])
  {
  }

  lemma RegisterKeepsValid(s: State, d: Decision, a: Action)
    requires Valid(s)
    ensures Valid(RegisterAction(s, d, a).state)
  {
    var key := a.IndexKey();
    if key !in s.index && a.id !in s.actions { AddedIsIndexed(s.actions, s.index, a, key); }
  }

  lemma MutateKeepsValid(s: State, id: ActionId, version: nat, revision: nat, fields: Fields, now: Time)
    requires Valid(s)
    ensures Valid(MutatePlan(s, id, version, revision, fields, now).state)
  {
    if id in s.actions && s.actions[id].state == Running && s.actions[id].version == version {
      var a := s.actions[id];
      var u := UpdatePlan(s, id, a.target, revision, fields, now);
      UpdateKeepsValid(s, id, a.target, revision, fields, now);
      AdvanceKeepsValid(u.state, id, version, ExecutedPendingVerification, a.requester, now);
    }
  }

  /** What such a composite can do to the parts the index and the log are
      about. */
  predicate AtMostAdvanced(s: State, t: State, id: ActionId) {
    && t.index == s.index && t.plans == s.plans && t.log == s.log && t.switches == s.switches
    && (t.actions == s.actions
        || (id in s.actions && id in t.actions && t.actions == s.actions[id := t.actions[id]]
            && t.actions[id].Fixed() == s.actions[id].Fixed()))
  }

  lemma CaptureAdvances(s: State, snap: Snapshot, id: ActionId, version: nat, now: Time)
    ensures AtMostAdvanced(s, CaptureSnapshot(s, snap, id, version, now).state, id)
  {
  }

  lemma LeaseAdvances(s: State, id: ActionId, version: nat, leaseId: LeaseId, now: Time)
    ensures AtMostAdvanced(s, AcquireLease(s, id, version, leaseId, now).state, id)
  {
  }

  lemma BeginAdvances(s: State, id: ActionId, version: nat, cid: ConfirmationId, now: Time)
    ensures AtMostAdvanced(s, BeginExecution(s, id, version, cid, now).state, id)
  {
  }

  lemma RecordAdvances(s: State, id: ActionId, version: nat, success: bool, now: Time)
    ensures AtMostAdvanced(s, RecordVerification(s, id, version, success, now).state, id)
  {
  }

  lemma ReconcileAdvances(s: State, id: ActionId, version: nat, next: LifecycleState, outcome: Outcome, now: Time)
    ensures AtMostAdvanced(s, MarkReconciled(s, id, version, next, outcome, now).state, id)
  {
  }

  lemma RollbackAdvances(s: State, id: ActionId, version: nat, from: set<LifecycleState>, next: LifecycleState,
                         now: Time)
    ensures AtMostAdvanced(s, AdvanceRollback(s, id, version, from, next, now).state, id)
  {
  }

  lemma AdvancedKeepsValid(s: State, t: State, id: ActionId)
    requires Valid(s) && AtMostAdvanced(s, t, id)
    ensures Valid(t)
  {
    if t.actions != s.actions {
      var a, b := s.actions[id], t.actions[id];
      assert a.Fixed().IndexKey() == a.IndexKey() && b.Fixed().IndexKey() == b.IndexKey();
      assert a.Fixed().id == a.id && b.Fixed().id == b.id;
    }
  }

  // Each composite on its own.

  lemma CaptureKeepsValid(s: State, snap: Snapshot, id: ActionId, version: nat, now: Time)
    requires Valid(s)
    ensures Valid(CaptureSnapshot(s, snap, id, version, now).state)
  {
    CaptureAdvances(s, snap, id, version, now);
    AdvancedKeepsValid(s, CaptureSnapshot(s, snap, id, version, now).state, id);
  }

  lemma LeaseKeepsValid(s: State, id: ActionId, version: nat, leaseId: LeaseId, now: Time)
    requires Valid(s)
    ensures Valid(AcquireLease(s, id, version, leaseId, now).state)
  {
    LeaseAdvances(s, id, version, leaseId, now);
    AdvancedKeepsValid(s, AcquireLease(s, id, version, leaseId, now).state, id);
  }

  lemma BeginKeepsValid(s: State, id: ActionId, version: nat, cid: ConfirmationId, now: Time)
    requires Valid(s)
    ensures Valid(BeginExecution(s, id, version, cid, now).state)
  {
    BeginAdvances(s, id, version, cid, now);
    AdvancedKeepsValid(s, BeginExecution(s, id, version, cid, now).state, id);
  }

  lemma RecordKeepsValid(s: State, id: ActionId, version: nat, success: bool, now: Time)
    requires Valid(s)
    ensures Valid(RecordVerification(s, id, version, success, now).state)
  {
    RecordAdvances(s, id, version, success, now);
    AdvancedKeepsValid(s, RecordVerification(s, id, version, success, now).state, id);
  }

  lemma ReconcileKeepsValid(s: State, id: ActionId, version: nat, next: LifecycleState, outcome: Outcome, now: Time)
    requires Valid(s)
    ensures Valid(MarkReconciled(s, id, version, next, outcome, now).state)
  {
    ReconcileAdvances(s, id, version, next, outcome, now);
    AdvancedKeepsValid(s, MarkReconciled(s, id, version, next, outcome, now).state, id);
  }

  lemma RollbackKeepsValid(s: State, id: ActionId, version: nat, from: set<LifecycleState>, next: LifecycleState,
                           now: Time)
    requires Valid(s)
    ensures Valid(AdvanceRollback(s, id, version, from, next, now).state)
  {
    RollbackAdvances(s, id, version, from, next, now);
    AdvancedKeepsValid(s, AdvanceRollback(s, id, version, from, next, now).state, id);
  }

  lemma ConfirmKeepsValid(s: State, b: Binding, id: ActionId, version: nat, actor: Subject, now: Time)
    requires Valid(s)
    ensures Valid(ConfirmAndAdvance(s, b, id, version, actor, now).state)
  {
    AdvanceKeepsValid(PutBinding(s, b.(state := BindingConfirmed)), id, version, Confirmed, actor, now);
  }

  /** Commands on an action that is under way. */
  predicate UnderWay(c: Command) {
    || c.DoCapture? || c.DoAcquireLease? || c.DoBegin? || c.DoMutate? || c.DoRecord? || c.DoMarkReconciled?
    || c.DoAdvanceRollback?
  }

  lemma UnderWayKeepsValid(s: State, c: Command)
    requires Valid(s) && UnderWay(c)
    ensures Valid(Do(s, c))
  {
    match c
    case DoCapture(snap, id, version, now) => CaptureKeepsValid(s, snap, id, version, now);
    case DoAcquireLease(id, version, leaseId, now) => LeaseKeepsValid(s, id, version, leaseId, now);
    case DoBegin(id, version, cid, now) => BeginKeepsValid(s, id, version, cid, now);
    case DoMutate(id, version, revision, fields, now) => MutateKeepsValid(s, id, version, revision, fields, now);
    case DoRecord(id, version, success, now) => RecordKeepsValid(s, id, version, success, now);
    case DoMarkReconciled(id, version, next, outcome, now) => ReconcileKeepsValid(s, id, version, next, outcome, now);
    case DoAdvanceRollback(id, version, from, next, now) => RollbackKeepsValid(s, id, version, from, next, now);
  }

  /** Every command, successful or not, keeps the repository consistent. */
  lemma CommandKeepsValid(s: State, c: Command)
    requires Valid(s)
    ensures Valid(Do(s, c))
  {
    if UnderWay(c) { UnderWayKeepsValid(s, c); return; }
    match c
    case DoCreatePlan(target, env, title, objective, now, enabled) =>
      var p := NewPlan(target, env, title, objective, now, enabled);
      if p.Ok? { CreateKeepsValid(s, p.value); }
    case DoUpdatePlan(author, target, revision, fields, now) =>
      UpdateKeepsValid(s, author, target, revision, fields, now);
    case DoRegister(d, a) => RegisterKeepsValid(s, d, a);
    case DoAdvance(id, version, next, actor, now) => AdvanceKeepsValid(s, id, version, next, actor, now);
    case DoConfirm(b, id, version, actor, now) => ConfirmKeepsValid(s, b, id, version, actor, now);
    case _ =>
  }

  lemma {:induction false} CommandsKeepValid(s: State, cs: seq<Command>)
    requires Valid(s)
    ensures Valid(DoAll(s, cs))
    decreases |cs|
  {
    if cs == [] { return; }
    CommandsKeepValid(s, cs[..|cs| - 1]);
    CommandKeepsValid(DoAll(s, cs[..|cs| - 1]), cs[|cs| - 1]);
  }

  /** After any sequence of calls, looking a key up in the index gives what a
      scan of the stored actions gives, each target's revision is one plus the
      mutations applied to it, and no revision was written twice. */
  lemma RepositoryStaysConsistent(max: nat, t0: Time, cs: seq<Command>, key: Key)
    ensures
      var s := DoAll(Initial(max, t0), cs);
      && (FindByKey(s, key).None? <==> forall id :: id in s.actions ==> s.actions[id].IndexKey() != key)
      && (forall id :: id in s.actions && s.actions[id].IndexKey() == key ==> FindByKey(s, key) == Some(s.actions[id]))
      && (forall t :: t in s.plans ==> s.plans[t].revision == 1 + Mutations(s.log, t) && Logged(s.log, t, s.plans[t]))
      && Ordered(s.log)
  {
    var z := Initial(max, t0);
    assert forall t :: StoredOk(z.plans, z.log, t);
    CommandsKeepValid(z, cs);
    var s := DoAll(z, cs);
    forall t | t in s.plans ensures s.plans[t].revision == 1 + Mutations(s.log, t) && Logged(s.log, t, s.plans[t]) {
      assert StoredOk(s.plans, s.log, t);
    }
  }
}
