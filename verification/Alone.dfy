/** The executor's three verbs run without interference
    (control_plane/executor.py): what each leaves behind, exactly. */
module Alone {
  import opened Types
  import opened Lifecycle
  import opened Plans
  import opened KillSwitch
  import opened Store
  import opened Gate
  import opened Executor
  import opened Invariant
  import opened Preservation

  // ----- execute ----------------------------------------------------------

  /** Everything a first execution requires of the state, in one conjunction. */
  predicate Admissible(s: State, c: Contract, now: Time) {
    var id := c.actionId;
    && id in s.actions && s.actions[id].state == Leased && Matches(s.actions[id], c)
    && now < s.actions[id].expiresAt && now < c.expiresAt
    && (id in s.evidence ==> s.evidence[id] == c)
    && c.confirmationId in s.bindings && s.bindings[c.confirmationId].actionId == id
    && s.bindings[c.confirmationId].state == BindingConfirmed && now < s.bindings[c.confirmationId].expiresAt
    && SnapshotMatches(SnapshotFor(s, id), c)
    && c.target in s.plans && s.plans[c.target] == c.expectedDigest && c.expectedDigest.revision == c.expectedRevision
    && id in s.leases && s.leases[id].granted && now < s.leases[id].expiresAt
    && s.leases[id].id == c.leaseId && s.leases[id].fencingToken == c.fencingToken
    && s.leases[id].actionVersion == c.actionVersion
    && SwitchFor(s.switches, Staging).state == Disengaged && SwitchFor(s.switches, Staging).epoch == c.killSwitchEpoch
  }

  predicate Matches(a: Action, c: Contract) {
    && a.version == c.actionVersion && a.operation == UpdateProjectPlan && a.protocol == Mc616d2V1
    && a.target == c.target && a.environment == c.environment == Staging && a.planId == c.planId
    && a.planRevision == c.expectedRevision && a.policyVersion == c.policyVersion
    && c.capabilityVersion == CAPABILITY_VERSION
  }

  predicate SnapshotMatches(snap: Option<Snapshot>, c: Contract) {
    && snap.Some? && snap.value.id == c.snapshotId && snap.value.revision == c.expectedRevision
    && snap.value.target == c.target && snap.value.environment == c.environment
  }

  lemma {:induction false} FirstSnapshotNames(snaps: seq<Snapshot>, id: ActionId)
    ensures var f := FirstSnapshot(snaps, id); f.Some? ==> f.value.actionId == id
  {
    if snaps != [] && snaps[0].actionId != id { FirstSnapshotNames(snaps[1..], id); }
  }

  /** The state in which execution has begun. */
  function Begun(s: State, c: Contract): State
    requires c.actionId in s.actions && c.confirmationId in s.bindings
  {
    var a := s.actions[c.actionId];
    s.(actions := s.actions[c.actionId := a.(state := Running, version := a.version + 1)],
       evidence := s.evidence[c.actionId := c],
       bindings := s.bindings[c.confirmationId := s.bindings[c.confirmationId].(state := BindingConsumed)])
  }

  /** The binding, gate and preconditions together accept exactly the
      admissible contracts. */
  lemma ChecksMeanAdmissible(s: State, c: Contract, now: Time)
    requires c.actionId in s.actions && s.actions[c.actionId].state == Leased
    ensures var b := s.(evidence := s.evidence[c.actionId := c]);
            Admissible(s, c, now) <==>
              && ValidateWorld(s, c, now).Ok? && (c.actionId in s.evidence ==> s.evidence[c.actionId] == c)
              && Evaluate(b, c, now) == GateAllowed && Preconditions(b, c, Leased, now).Ok?
              && s.bindings[c.confirmationId].state == BindingConfirmed
  {
    FirstSnapshotNames(s.snapshots, c.actionId);
  }

  /** With the checks passed, preparing is starting. */
  lemma PreparedWhen(s: State, c: Contract, now: Time)
    requires var b := s.(evidence := s.evidence[c.actionId := c]);
             && ValidateWorld(s, c, now).Ok? && s.actions[c.actionId].state == Leased
             && (c.actionId in s.evidence ==> s.evidence[c.actionId] == c)
             && Evaluate(b, c, now) == GateAllowed && Preconditions(b, c, Leased, now).Ok?
    ensures var b := s.(evidence := s.evidence[c.actionId := c]);
            var r := BeginExecution(b, c.actionId, s.actions[c.actionId].version, c.confirmationId, now);
            Prepare(s, c, now) ==
            Reply(r.state, if r.result.Err? then Err(r.result.error) else Ok(Some(r.result.value.version)))
  {
    var b := s.(evidence := s.evidence[c.actionId := c]);
    if c.actionId in s.evidence { assert b.evidence == s.evidence; }
  }

  /** With a check failed, nothing but the evidence can have been noted. */
  lemma RefusedWhen(s: State, c: Contract, now: Time)
    requires c.actionId in s.actions && s.actions[c.actionId].state == Leased
    requires var b := s.(evidence := s.evidence[c.actionId := c]);
             !(&& ValidateWorld(s, c, now).Ok? && (c.actionId in s.evidence ==> s.evidence[c.actionId] == c)
               && Evaluate(b, c, now) == GateAllowed && Preconditions(b, c, Leased, now).Ok?)
    ensures Prepare(s, c, now).result.Err? && OnlyEvidence(s, Prepare(s, c, now).state, c)
  {
    var b := s.(evidence := s.evidence[c.actionId := c]);
    if c.actionId in s.evidence && s.evidence[c.actionId] == c { assert b.evidence == s.evidence; }
  }

  predicate OnlyEvidence(s: State, t: State, c: Contract) {
    t == s || (c.actionId !in s.evidence && t == s.(evidence := s.evidence[c.actionId := c]))
  }

  lemma BeginSucceeds(s: State, c: Contract, now: Time)
    requires c.actionId in s.actions && c.confirmationId in s.bindings
    requires var a := s.actions[c.actionId]; a.state == Leased && a.approver.Some? && now < a.expiresAt
    ensures var b := s.(evidence := s.evidence[c.actionId := c]);
            var r := BeginExecution(b, c.actionId, s.actions[c.actionId].version, c.confirmationId, now);
            if s.bindings[c.confirmationId].state == BindingConfirmed
            then r.state == Begun(s, c) && r.result.Ok? && r.result.value.version == s.actions[c.actionId].version + 1
            else r.state == b && r.result.Err?
  {
  }

  lemma PrepareBegins(s: State, c: Contract, now: Time)
    requires c.actionId in s.actions && s.actions[c.actionId].state == Leased && s.actions[c.actionId].approver.Some?
    ensures Prepare(s, c, now).result.Ok? <==> Admissible(s, c, now)
    ensures Admissible(s, c, now) ==>
      Prepare(s, c, now) == Reply(Begun(s, c), Ok(Some(s.actions[c.actionId].version + 1)))
    ensures !Admissible(s, c, now) ==> OnlyEvidence(s, Prepare(s, c, now).state, c)
  {
    var b := s.(evidence := s.evidence[c.actionId := c]);
    ChecksMeanAdmissible(s, c, now);
    if && ValidateWorld(s, c, now).Ok? && (c.actionId in s.evidence ==> s.evidence[c.actionId] == c)
       && Evaluate(b, c, now) == GateAllowed && Preconditions(b, c, Leased, now).Ok? {
      PreparedWhen(s, c, now);
      BeginSucceeds(s, c, now);
      if c.actionId in s.evidence { assert b.evidence == s.evidence; }
    } else {
      RefusedWhen(s, c, now);
    }
  }

  /** The plan an admitted execution writes. */
  function NextPlan(s: State, c: Contract, now: Time): Result<ProjectPlan>
    requires c.target in s.plans
  {
    Update(s.plans[c.target], c.expectedRevision, c.fields, now)
  }

  /** The whole state after a successful execution: one verified action three
      versions on, one new revision, one consumed confirmation, one released
      lease, and nothing else. */
  function Finished(s: State, c: Contract, p: ProjectPlan): State
    requires c.actionId in s.actions && c.confirmationId in s.bindings && c.target in s.plans && c.actionId in s.leases
  {
    var a := s.actions[c.actionId];
    Begun(s, c).(actions := s.actions[c.actionId := a.(state := VerifiedSuccess, version := a.version + 3)],
                 plans := s.plans[c.target := p],
                 log := s.log + [Write(c.target, By(c.actionId), Some(s.plans[c.target]), p)],
                 outcomes := s.outcomes[c.actionId := ReadBackSucceeded],
                 leases := s.leases[c.actionId := s.leases[c.actionId].(granted := false)])
  }

  /** After the mutation the read-back cannot fail, and the lease is released. */
  lemma ConcludeSucceeds(s: State, c: Contract, version: nat, now: Time)
    requires c.actionId in s.actions && c.actionId in s.leases && c.target in s.plans
    requires var a := s.actions[c.actionId];
             a.state == ExecutedPendingVerification && a.version == version && now < a.expiresAt && a.approver.Some?
    requires var p := s.plans[c.target];
             && p.target == c.target && p.environment == c.environment && p.revision == c.expectedRevision + 1
             && c.fields.Keys <= ALLOWED_FIELDS && Carries(p, c.fields)
    requires s.leases[c.actionId].id == c.leaseId && s.leases[c.actionId].fencingToken == c.fencingToken
    ensures
      var a := s.actions[c.actionId];
      Conclude(s, c, version, now) ==
        Reply(s.(actions := s.actions[c.actionId := a.(state := VerifiedSuccess, version := version + 1)],
                 outcomes := s.outcomes[c.actionId := ReadBackSucceeded],
                 leases := s.leases[c.actionId := s.leases[c.actionId].(granted := false)]),
              Ok(Done(ReadBackSucceeded, VerifiedSuccess)))
  {
    assert ReadBack(c, s.plans[c.target]);
  }

  /** The state between the mutation and its verification. */
  function Applied(s: State, c: Contract, p: ProjectPlan): State
    requires c.actionId in s.actions && c.confirmationId in s.bindings && c.target in s.plans
  {
    var a := s.actions[c.actionId];
    Begun(s, c).(actions := s.actions[c.actionId := a.(state := ExecutedPendingVerification, version := a.version + 2)],
                 plans := s.plans[c.target := p],
                 log := s.log + [Write(c.target, By(c.actionId), Some(s.plans[c.target]), p)],
                 outcomes := s.outcomes[c.actionId := MutationSucceeded])
  }

  /** The part of admissibility that the run itself depends on. */
  predicate Runnable(s: State, c: Contract, now: Time) {
    && c.actionId in s.actions && c.confirmationId in s.bindings && c.target in s.plans && c.actionId in s.leases
    && var a, p, l := s.actions[c.actionId], s.plans[c.target], s.leases[c.actionId];
       && a.state == Leased && a.approver.Some? && now < a.expiresAt && a.target == c.target
       && p.target == c.target && p.revision == c.expectedRevision && c.environment == Staging
       && l.id == c.leaseId && l.fencingToken == c.fencingToken
  }

  /** The compare-and-set of a RUNNING action that is confirmed and in time. */
  lemma MutateIs(b: State, id: ActionId, revision: nat, fields: Fields, now: Time)
    requires id in b.actions && b.actions[id].target in b.plans
    requires b.actions[id].state == Running && b.actions[id].approver.Some? && now < b.actions[id].expiresAt
    ensures var a, x := b.actions[id], b.actions[id].target;
            var r := MutatePlan(b, id, a.version, revision, fields, now);
            match Update(b.plans[x], revision, fields, now)
            case Err(_) => r == Reply(b, Err(StaleEvidence))
            case Ok(p) =>
              var after := a.(state := ExecutedPendingVerification, version := a.version + 1);
              r == Reply(b.(actions := b.actions[id := after], plans := b.plans[x := p],
                            log := b.log + [Write(x, By(id), Some(b.plans[x]), p)],
                            outcomes := b.outcomes[id := MutationSucceeded]), Ok(after))
  {
    MutateDid(b, id, b.actions[id].version, revision, fields, now);
  }

  lemma AppliedIs(s: State, c: Contract, p: ProjectPlan)
    requires c.actionId in s.actions && c.confirmationId in s.bindings && c.target in s.plans
    ensures var b, id := Begun(s, c), c.actionId;
            var after := b.actions[id].(state := ExecutedPendingVerification, version := b.actions[id].version + 1);
            Applied(s, c, p) ==
            b.(actions := b.actions[id := after], plans := b.plans[c.target := p],
               log := b.log + [Write(c.target, By(id), Some(b.plans[c.target]), p)],
               outcomes := b.outcomes[id := MutationSucceeded])
  {
    var b, id := Begun(s, c), c.actionId;
    var after := b.actions[id].(state := ExecutedPendingVerification, version := b.actions[id].version + 1);
    assert Applied(s, c, p).actions == b.actions[id := after];
  }

  /** The write of a run under way, as the repository sees it. */
  lemma BegunMutates(s: State, c: Contract, now: Time)
    requires Runnable(s, c, now)
    ensures
      var v := s.actions[c.actionId].version;
      var r := MutatePlan(Begun(s, c), c.actionId, v + 1, c.expectedRevision, c.fields, now);
      match NextPlan(s, c, now)
      case Ok(p) => r.result.Ok? && r.state == Applied(s, c, p) && r.result.value.version == v + 2
      case Err(_) => r == Reply(Begun(s, c), Err(StaleEvidence))
  {
    MutateIs(Begun(s, c), c.actionId, c.expectedRevision, c.fields, now);
    if NextPlan(s, c, now).Ok? { AppliedIs(s, c, NextPlan(s, c, now).value); }
  }

  lemma RunMutates(s: State, c: Contract, now: Time)
    requires Runnable(s, c, now)
    ensures
      var v := s.actions[c.actionId].version;
      Mutate(Begun(s, c), c, v + 1, now) ==
        match NextPlan(s, c, now)
        case Ok(p) => Reply(Applied(s, c, p), Ok(v + 2))
        case Err(_) => Reply(Begun(s, c), Err(StaleEvidence))
  {
    BegunMutates(s, c, now);
  }

  lemma AppliedToFinished(s: State, c: Contract, p: ProjectPlan)
    requires c.actionId in s.actions && c.confirmationId in s.bindings && c.target in s.plans && c.actionId in s.leases
    ensures var t := Applied(s, c, p);
            var a := t.actions[c.actionId];
            Finished(s, c, p) ==
              t.(actions := t.actions[c.actionId := a.(state := VerifiedSuccess, version := a.version + 1)],
                 outcomes := t.outcomes[c.actionId := ReadBackSucceeded],
                 leases := t.leases[c.actionId := t.leases[c.actionId].(granted := false)])
  {
    var t, f := Applied(s, c, p), Finished(s, c, p);
    assert f.actions == t.actions[c.actionId := f.actions[c.actionId]];
    assert f.outcomes == t.outcomes[c.actionId := ReadBackSucceeded];
  }

  lemma RunConcludes(s: State, c: Contract, now: Time)
    requires Runnable(s, c, now) && NextPlan(s, c, now).Ok?
    ensures var p := NextPlan(s, c, now).value;
            Conclude(Applied(s, c, p), c, s.actions[c.actionId].version + 2, now) ==
              Reply(Finished(s, c, p), Ok(Done(ReadBackSucceeded, VerifiedSuccess)))
  {
    var p := NextPlan(s, c, now).value;
    ConcludeSucceeds(Applied(s, c, p), c, s.actions[c.actionId].version + 2, now);
    AppliedToFinished(s, c, p);
  }

  lemma RunFinishes(s: State, c: Contract, now: Time)
    requires Runnable(s, c, now)
    ensures Finish(Begun(s, c), c, s.actions[c.actionId].version + 1, now) ==
      match NextPlan(s, c, now)
      case Ok(p) => Reply(Finished(s, c, p), Ok(Done(ReadBackSucceeded, VerifiedSuccess)))
      case Err(_) => Reply(Begun(s, c), Err(StaleEvidence))
  {
    RunMutates(s, c, now);
    if NextPlan(s, c, now).Ok? { RunConcludes(s, c, now); }
  }

  lemma AdmissibleIsRunnable(s: State, c: Contract, now: Time)
    requires Inv(s) && Admissible(s, c, now)
    ensures Runnable(s, c, now)
  {
    assert ActionOk(s, c.actionId);
    assert StoredOk(s.plans, s.log, c.target);
  }

  lemma AdmittedRuns(s: State, c: Contract, now: Time)
    requires Admissible(s, c, now) && Runnable(s, c, now)
    ensures Execute(s, c, now) ==
      match NextPlan(s, c, now)
      case Ok(p) => Reply(Finished(s, c, p), Ok(Done(ReadBackSucceeded, VerifiedSuccess)))
      case Err(_) => Reply(Begun(s, c), Err(StaleEvidence))
  {
    PrepareBegins(s, c, now);
    RunFinishes(s, c, now);
  }

  lemma UnleasedRefused(s: State, c: Contract, now: Time)
    requires c.actionId in s.actions ==>
      var a := s.actions[c.actionId]; a.id == c.actionId && a.state != Leased && LeaseOk(s.leases, a)
    ensures var r := Prepare(s, c, now);
            && r.state == s
            && (r.result.Ok? ==>
                  c.actionId in s.actions && s.actions[c.actionId].state == VerifiedSuccess && r.result.value == None)
  {
  }

  /** An action that is not LEASED is never executed: before it there is no
      lease, after it the lease is for an older version. */
  lemma OnlyLeasedExecutes(s: State, c: Contract, now: Time)
    requires Inv(s)
    requires c.actionId in s.actions ==> s.actions[c.actionId].state != Leased
    ensures Execute(s, c, now).state == s
    ensures Execute(s, c, now).result.Ok? ==>
      c.actionId in s.actions && s.actions[c.actionId].state == VerifiedSuccess
      && Execute(s, c, now).result == Ok(Done(ReadBackSucceeded, VerifiedSuccess))
  {
    assert c.actionId in s.actions ==> ActionOk(s, c.actionId);
    UnleasedRefused(s, c, now);
  }

  /** The reply of an `execute` that nobody interrupts. */
  predicate RanAlone(s: State, c: Contract, now: Time, r: Reply<Done>) {
    if Admissible(s, c, now) then
      if Acceptable(s.plans[c.target], c.fields) then
        && NextPlan(s, c, now).Ok?
        && r == Reply(Finished(s, c, NextPlan(s, c, now).value), Ok(Done(ReadBackSucceeded, VerifiedSuccess)))
      else r == Reply(Begun(s, c), Err(StaleEvidence))
    else
      && OnlyEvidence(s, r.state, c)
      && (r.state != s ==> c.actionId in s.actions && s.actions[c.actionId].state == Leased)
      && (r.result.Ok? ==> c.actionId in s.actions && s.actions[c.actionId].state == VerifiedSuccess)
  }

  /** `execute`, run alone from any state that satisfies the invariant, with any
      contract at all.  It changes anything only when entered in LEASED; it then
      refuses, leaving at most the write-once evidence; or it finishes; or,
      exactly when the plan store rejects the new text, it stops in RUNNING. */
  lemma ExecuteAlone(s: State, c: Contract, now: Time)
    requires Inv(s)
    ensures RanAlone(s, c, now, Execute(s, c, now))
  {
    if Admissible(s, c, now) {
      AdmissibleIsRunnable(s, c, now);
      AdmittedRuns(s, c, now);
    } else if c.actionId in s.actions && s.actions[c.actionId].state == Leased {
      assert ActionOk(s, c.actionId);
      PrepareBegins(s, c, now);
    } else {
      OnlyLeasedExecutes(s, c, now);
    }
  }

  // ----- reconcile --------------------------------------------------------

  /** When a reconciliation has something to record: the outcome is on record as
      unknown, the action is live, and one look at the plan settles it. */
  predicate Settleable(s: State, c: Contract, now: Time) {
    && c.actionId in s.actions && c.actionId in s.outcomes && s.outcomes[c.actionId] == UnknownOutcome
    && c.target in s.plans && now < s.actions[c.actionId].expiresAt
    && var st := s.actions[c.actionId].state;
       match Classify(c, s.plans[c.target])
       case MutationSucceeded => st == Running
       case MutationNotStarted => st == Leased || st == Running || st == VerificationFailed
       case _ => false
  }

  function SettledAs(verdict: Outcome): LifecycleState {
    if verdict == MutationSucceeded then ExecutedPendingVerification else ReconciliationRequired
  }

  /** The state after recording a conclusion. */
  function Settled(s: State, c: Contract, verdict: Outcome): State
    requires c.actionId in s.actions
  {
    var a := s.actions[c.actionId];
    s.(actions := s.actions[c.actionId := a.(state := SettledAs(verdict), version := a.version + 1)],
       outcomes := s.outcomes[c.actionId := verdict])
  }

  lemma SettledIsNew(s: State, c: Contract, verdict: Outcome)
    requires c.actionId in s.actions
    ensures Settled(s, c, verdict) != s
  {
    assert Settled(s, c, verdict).actions[c.actionId].version != s.actions[c.actionId].version;
  }

  /** An action nobody may touch before it is confirmed advances as the table
      says, within its window. */
  lemma VisitedAdvances(a: Action, next: LifecycleState, now: Time, actor: Subject)
    requires Visited(a) && (next == ExecutedPendingVerification || next == ReconciliationRequired)
    ensures var r := Advance(a, next, Some(now), Some(actor));
            if now < a.expiresAt && InTable(a.state, next) then r == Ok(a.(state := next, version := a.version + 1))
            else r.Err?
  {
  }

  lemma MarkIs(s: State, id: ActionId, next: LifecycleState, outcome: Outcome, now: Time)
    requires id in s.actions && Visited(s.actions[id])
    requires next == ExecutedPendingVerification || next == ReconciliationRequired
    ensures var a := s.actions[id];
            var r := MarkReconciled(s, id, a.version, next, outcome, now);
            if now < a.expiresAt && InTable(a.state, next) then
              var b := a.(state := next, version := a.version + 1);
              r == Reply(s.(actions := s.actions[id := b], outcomes := s.outcomes[id := outcome]), Ok(b))
            else r.state == s && r.result.Err?
  {
    VisitedAdvances(s.actions[id], next, now, s.actions[id].requester);
  }

  lemma SettleIs(s: State, c: Contract, verdict: Outcome, now: Time)
    requires c.actionId in s.actions && Visited(s.actions[c.actionId])
    requires verdict == MutationSucceeded || verdict == MutationNotStarted
    ensures var a := s.actions[c.actionId];
            var r := Settle(s, c, a.version, verdict, now);
            if now < a.expiresAt && InTable(a.state, SettledAs(verdict))
            then r == Reply(Settled(s, c, verdict), Ok(verdict))
            else r.state == s && r.result.Err?
  {
    MarkIs(s, c.actionId, SettledAs(verdict), verdict, now);
  }

  /** From a state a caller can have brought an action to, the table offers
      these ways and no others. */
  lemma SettleableWhen(a: Action, verdict: Outcome)
    requires Visited(a) && (verdict == MutationSucceeded || verdict == MutationNotStarted)
    ensures InTable(a.state, SettledAs(verdict)) <==>
      if verdict == MutationSucceeded then a.state == Running
      else a.state == Leased || a.state == Running || a.state == VerificationFailed
  {
  }

  /** `reconcile`, run alone with any contract and whatever the receipt store
      answers, changes anything if and only if there is something to record, and
      then records exactly that. */
  lemma ReconcileAlone(s: State, c: Contract, now: Time, reply: Option<ReceiptReply>)
    requires Inv(s)
    ensures var r := Reconcile(s, c, now, reply);
            if Settleable(s, c, now) then
              var verdict := Classify(c, s.plans[c.target]);
              r == Reply(Settled(s, c, verdict), Ok(Reconciled(verdict, None))) && r.state != s
            else r.state == s
  {
    if c.actionId in s.actions && c.target in s.plans {
      assert ActionOk(s, c.actionId);
      ReconcileObserved(s, c, now, reply);
    }
  }

  lemma ReconcileObserved(s: State, c: Contract, now: Time, reply: Option<ReceiptReply>)
    requires c.actionId in s.actions && c.target in s.plans && Visited(s.actions[c.actionId])
    ensures var r := Reconcile(s, c, now, reply);
            if Settleable(s, c, now) then
              var verdict := Classify(c, s.plans[c.target]);
              r == Reply(Settled(s, c, verdict), Ok(Reconciled(verdict, None))) && r.state != s
            else r.state == s
  {
    var verdict := Classify(c, s.plans[c.target]);
    if verdict == MutationSucceeded || verdict == MutationNotStarted {
      SettleIs(s, c, verdict, now);
      SettledIsNew(s, c, verdict);
      SettleableWhen(s.actions[c.actionId], verdict);
    }
  }

  /** Receipt evidence never changes what is recorded or concluded: it only
      annotates an inconclusive answer, and only if it is about this very
      attempt. */
  lemma ReceiptOnlyAnnotates(s: State, c: Contract, now: Time, reply: Option<ReceiptReply>, other: Option<ReceiptReply>)
    ensures var r, q := Reconcile(s, c, now, reply), Reconcile(s, c, now, other);
            && q.state == r.state && (q.result.Ok? <==> r.result.Ok?)
            && (r.result.Ok? ==> q.result.value.outcome == r.result.value.outcome)
            && (r.result.Ok? && r.result.value.receipt.Some? ==>
                  && r.result.value.outcome == UnknownOutcome && r.state == s
                  && reply.Some? && reply.value.actionId == c.actionId && reply.value.token == c.fencingToken
                  && c.actionId in s.evidence && reply.value.digest == s.evidence[c.actionId])
  {
  }

  // ----- rollback ---------------------------------------------------------

  /** What the undo theorem assumes of the store: leases and confirmers go with
      the lifecycle, a rollback has its original's target, and a snapshot holds
      the plan of the revision the action was authorized for.  Every run of the
      callers keeps it; repository calls made out of turn can break it.  It does
      not say that nobody has overtaken the original action. */
  ghost predicate Orderly(s: State) {
    && (forall id {:trigger RecordOk(s, id)} :: id in s.actions ==> RecordOk(s, id))
    && (forall i {:trigger CaptureOk(s, s.snapshots[i])} :: 0 <= i < |s.snapshots| ==> CaptureOk(s, s.snapshots[i]))
    && (forall t :: t in s.plans ==> s.plans[t].target == t)
  }

  predicate RecordOk(s: State, id: ActionId)
    requires id in s.actions
  {
    var a := s.actions[id];
    && a.id == id && LeaseOk(s.leases, a) && (NeedsConfirmer(a.state) ==> a.approver.Some?)
    && (a.rollbackOf.Some? ==>
          a.rollbackOf.value in s.actions && a.rollbackOf.value != id
          && s.actions[a.rollbackOf.value].target == a.target)
  }

  predicate CaptureOk(s: State, snap: Snapshot) {
    && snap.actionId in s.actions && snap.revision == snap.payload.revision == s.actions[snap.actionId].planRevision
    && snap.payload.target == snap.target == s.actions[snap.actionId].target
  }

  /** Every state of every run satisfies it. */
  lemma ReachableIsOrderly(s: State)
    requires Inv(s)
    ensures Orderly(s)
  {
    forall id | id in s.actions ensures RecordOk(s, id) { assert ActionOk(s, id); }
    forall i | 0 <= i < |s.snapshots| ensures CaptureOk(s, s.snapshots[i]) { assert SnapshotOk(s, s.snapshots[i]); }
    forall t | t in s.plans ensures s.plans[t].target == t { assert StoredOk(s.plans, s.log, t); }
  }

  lemma LeasedRollback(s: State, rid: ActionId, leaseId: LeaseId, now: Time)
    requires rid in s.actions && RecordOk(s, rid) && LeaseRollback(s, rid, leaseId, now).result.Ok?
    ensures var t := LeaseRollback(s, rid, leaseId, now).state;
            && rid in t.actions && t.actions == s.actions[rid := t.actions[rid]]
            && t.actions[rid].Fixed() == s.actions[rid].Fixed()
            && LeaseOk(t.leases, t.actions[rid]) && t == s.(actions := t.actions, leases := t.leases)
  {
    if s.actions[rid].state == SnapshotCaptured {
      assert rid !in s.leases;
      LeaseDid(s, rid, s.actions[rid].version, leaseId, now);
      LeaseTouchesTwo(s, rid, s.actions[rid].version, leaseId, now);
    }
  }

  lemma LeaseTouchesTwo(s: State, id: ActionId, version: nat, leaseId: LeaseId, now: Time)
    ensures var t := AcquireLease(s, id, version, leaseId, now).state; t == s.(actions := t.actions, leases := t.leases)
  {
  }

  /** Only a freshly leased rollback is admitted. */
  lemma AdmittedIsLeased(s: State, rid: ActionId, cid: ConfirmationId, now: Time)
    requires rid in s.actions && s.actions[rid].id == rid && LeaseOk(s.leases, s.actions[rid])
    requires AdmitRollback(s, rid, cid, now).Ok?
    ensures var c := AdmitRollback(s, rid, cid, now).value;
            && s.actions[rid].state == Leased && c.actionId == rid && c.actionVersion == s.actions[rid].version
            && c.target == s.actions[rid].target && c.environment == s.actions[rid].environment
            && rid in s.leases && c.leaseId == s.leases[rid].id && c.fencingToken == s.leases[rid].fencingToken
            && now < s.actions[rid].expiresAt
  {
  }

  lemma BegunRollback(s: State, c: Contract, now: Time)
    requires c.actionId in s.actions && s.actions[c.actionId].state == Leased
    requires BeginRollback(s, c, now).result.Ok?
    ensures var t := BeginRollback(s, c, now).state;
            && c.actionId in t.actions && t.actions[c.actionId].state == Running
            && t.actions[c.actionId].approver.Some?
            && t.actions == s.actions[c.actionId := t.actions[c.actionId]]
            && t.actions[c.actionId].Fixed() == s.actions[c.actionId].Fixed()
            && t == s.(actions := t.actions, bindings := t.bindings)
  {
  }

  /** Up to the restore a rollback moves only its own action, lease, evidence
      and confirmation, and the action it has begun is RUNNING. */
  predicate Started(s: State, b: State, rid: ActionId, now: Time) {
    && rid in s.actions && rid in b.actions && b.actions == s.actions[rid := b.actions[rid]]
    && b.actions[rid].state == Running && b.actions[rid].approver.Some?
    && b.actions[rid].target == s.actions[rid].target && now < b.actions[rid].expiresAt
    && b == s.(actions := b.actions, leases := b.leases, evidence := b.evidence, bindings := b.bindings)
  }

  lemma OpenSplits(s: State, rid: ActionId, cid: ConfirmationId, leaseId: LeaseId, now: Time)
    requires rid in s.actions && OpenRollback(s, rid, cid, leaseId, now).result.Ok?
    ensures var l, c := LeaseRollback(s, rid, leaseId, now), OpenRollback(s, rid, cid, leaseId, now).result.value;
            && l.result.Ok? && AdmitRollback(l.state, rid, cid, now) == Ok(c) && c.actionId == rid
            && var u := BindEvidence(l.state, rid, c).state;
               && BeginRollback(u, c, now).result.Ok?
               && OpenRollback(s, rid, cid, leaseId, now).state == BeginRollback(u, c, now).state
  {
  }

  /** One action took a step that left everything it is bound to alone. */
  predicate Stepped(s: State, t: State, rid: ActionId) {
    && rid in s.actions && rid in t.actions && t.actions == s.actions[rid := t.actions[rid]]
    && t.actions[rid].Fixed() == s.actions[rid].Fixed()
    && t == s.(actions := t.actions, leases := t.leases, evidence := t.evidence, bindings := t.bindings)
  }

  lemma SteppedTwice(s: State, l: State, u: State, b: State, rid: ActionId, now: Time)
    requires Stepped(s, l, rid) && u == l.(evidence := u.evidence) && Stepped(u, b, rid)
    requires b.actions[rid].state == Running && b.actions[rid].approver.Some? && now < l.actions[rid].expiresAt
    ensures Started(s, b, rid, now) && Stepped(s, b, rid)
  {
    var a, x, y := s.actions[rid], l.actions[rid], b.actions[rid];
    assert a.Fixed().target == a.target && y.Fixed().target == y.target;
    assert x.Fixed().expiresAt == x.expiresAt && y.Fixed().expiresAt == y.expiresAt;
  }

  lemma OpenedRollback(s: State, rid: ActionId, cid: ConfirmationId, leaseId: LeaseId, now: Time)
    requires rid in s.actions && RecordOk(s, rid) && OpenRollback(s, rid, cid, leaseId, now).result.Ok?
    ensures var b := OpenRollback(s, rid, cid, leaseId, now).state; Started(s, b, rid, now) && Stepped(s, b, rid)
  {
    OpenSplits(s, rid, cid, leaseId, now);
    var c := OpenRollback(s, rid, cid, leaseId, now).result.value;
    var l := LeaseRollback(s, rid, leaseId, now).state;
    LeasedRollback(s, rid, leaseId, now);
    assert l.actions[rid].Fixed().id == l.actions[rid].id;
    AdmittedIsLeased(l, rid, cid, now);
    var u := BindEvidence(l, rid, c).state;
    BegunRollback(u, c, now);
    SteppedTwice(s, l, u, BeginRollback(u, c, now).state, rid, now);
  }

  /** The restore writes the snapshot's text as the next revision. */
  predicate Rewrote(b: State, m: State, rid: ActionId, revision: nat, snap: Snapshot, now: Time) {
    && rid in b.actions && rid in m.actions && m.actions == b.actions[rid := m.actions[rid]]
    && var x := b.actions[rid].target;
       && x in b.plans && b.plans[x].revision == revision && x in m.plans && m.plans == b.plans[x := m.plans[x]]
       && m.plans[x] == b.plans[x].(title := snap.payload.title, objective := snap.payload.objective,
                                    revision := revision + 1, updatedAt := now)
       && m.log == b.log + [Write(x, By(rid), Some(b.plans[x]), m.plans[x])]
  }

  lemma RestoredWrites(b: State, rid: ActionId, original: Action, snap: Snapshot, now: Time)
    requires rid in b.actions && b.actions[rid].state == Running && b.actions[rid].approver.Some?
    requires now < b.actions[rid].expiresAt && Restore(b, rid, original, RestoreFields(snap), now).result.Ok?
    ensures Rewrote(b, Restore(b, rid, original, RestoreFields(snap), now).state, rid, original.planRevision + 1,
                    snap, now)
  {
    MutateDid(b, rid, b.actions[rid].version, original.planRevision + 1, RestoreFields(snap), now);
  }

  /** The verdict moves the two actions and no plan. */
  predicate Closed(m: State, t: State, rid: ActionId, oid: ActionId) {
    && rid in t.actions && oid in t.actions
    && t.actions == m.actions[rid := t.actions[rid]][oid := t.actions[oid]]
    && t.actions[rid].state == VerifiedSuccess && t.actions[oid].state == RolledBack
    && t.plans == m.plans && t.log == m.log
  }

  lemma VerdictDid(s: State, oid: ActionId, v: nat, now: Time)
    requires AdvanceRollback(s, oid, v, {RollbackRequested}, RolledBack, now).result.Ok?
    ensures var t := AdvanceRollback(s, oid, v, {RollbackRequested}, RolledBack, now).state;
            && oid in t.actions && t.actions == s.actions[oid := t.actions[oid]] && t.actions[oid].state == RolledBack
            && t.plans == s.plans && t.log == s.log
  {
  }

  lemma ConcludeSplits(m: State, c: Contract, oid: ActionId, v: nat, snap: Snapshot, version: nat, now: Time)
    requires c.actionId in m.actions
    requires ConcludeRollback(m, c, oid, v, snap, version, now).result == Ok(Done(RollbackSucceeded, RolledBack))
    ensures var r := RecordVerification(m, c.actionId, version, true, now);
            var f := AdvanceRollback(r.state, oid, v, {RollbackRequested}, RolledBack, now);
            && r.result.Ok? && f.result.Ok?
            && ConcludeRollback(m, c, oid, v, snap, version, now).state ==
               ReleaseLease(f.state, c.actionId, c.leaseId, c.fencingToken).state
  {
  }

  lemma ConcludedRollback(m: State, c: Contract, oid: ActionId, v: nat, snap: Snapshot, version: nat, now: Time)
    requires c.actionId in m.actions && oid in m.actions && oid != c.actionId
    requires ConcludeRollback(m, c, oid, v, snap, version, now).result == Ok(Done(RollbackSucceeded, RolledBack))
    ensures Closed(m, ConcludeRollback(m, c, oid, v, snap, version, now).state, c.actionId, oid)
  {
    ConcludeSplits(m, c, oid, v, snap, version, now);
    RecordDid(m, c.actionId, version, true, now);
    VerdictDid(RecordVerification(m, c.actionId, version, true, now).state, oid, v, now);
  }

  /** The original's target holds the snapshot's text again, two revisions past
      the snapshot; every other plan and every other action is as it was. */
  predicate Undone(s: State, t: State, rid: ActionId, oid: ActionId, snap: Snapshot, now: Time) {
    && rid in s.actions && oid in s.actions && t.actions.Keys == s.actions.Keys
    && t.actions[oid].state == RolledBack && t.actions[rid].state == VerifiedSuccess
    && (forall y :: y in s.actions && y != rid && y != oid ==> t.actions[y] == s.actions[y])
    && var x := s.actions[oid].target;
       && x in s.plans && x in t.plans && t.plans == s.plans[x := t.plans[x]]
       && s.plans[x].revision == snap.revision + 1
       && t.plans[x] == s.plans[x].(title := snap.payload.title, objective := snap.payload.objective,
                                    revision := snap.revision + 2, updatedAt := now)
       && t.log == s.log + [Write(x, By(rid), Some(s.plans[x]), t.plans[x])]
  }

  lemma StagesCompose(s: State, b: State, m: State, t: State, rid: ActionId, oid: ActionId, snap: Snapshot, now: Time)
    requires Started(s, b, rid, now) && Rewrote(b, m, rid, snap.revision + 1, snap, now) && Closed(m, t, rid, oid)
    requires oid in s.actions && oid != rid && s.actions[rid].target == s.actions[oid].target
    ensures Undone(s, t, rid, oid, snap, now)
  {
  }

  /** Rollback undoes the mutation: one that reports success leaves title and
      objective as the original's pre-mutation snapshot has them, two revisions
      past it, the original rolled back, and every other plan and action as it
      was. */
  lemma RollbackUndoes(s: State, rid: ActionId, oid: ActionId, cid: ConfirmationId, leaseId: LeaseId, now: Time)
    requires Orderly(s)
    requires ExecuteRollback(s, rid, oid, cid, leaseId, now).result == Ok(Done(RollbackSucceeded, RolledBack))
    ensures SnapshotFor(s, oid).Some? && CaptureOk(s, SnapshotFor(s, oid).value)
    ensures Undone(s, ExecuteRollback(s, rid, oid, cid, leaseId, now).state, rid, oid, SnapshotFor(s, oid).value, now)
  {
    assert RecordOk(s, rid);
    var original := s.actions[oid];
    var b := OpenRollback(s, rid, cid, leaseId, now);
    OpenedRollback(s, rid, cid, leaseId, now);
    assert SnapshotFor(b.state, oid) == SnapshotFor(s, oid);
    var snap := SnapshotFor(s, oid).value;
    FirstSnapshotCaptured(s, oid);
    var m := Restore(b.state, rid, original, RestoreFields(snap), now);
    RestoredWrites(b.state, rid, original, snap, now);
    var t := ConcludeRollback(m.state, b.result.value, oid, original.version, snap, m.result.value, now);
    ConcludedRollback(m.state, b.result.value, oid, original.version, snap, m.result.value, now);
    StagesCompose(s, b.state, m.state, t.state, rid, oid, snap, now);
  }

  /** A mutation followed by its rollback is the identity on everything but the
      revision and the time of the last change. */
  lemma MutationThenRollback(s: State, rid: ActionId, oid: ActionId, cid: ConfirmationId, leaseId: LeaseId,
                             fields: Fields, at: Time, now: Time)
    requires Orderly(s)
    requires ExecuteRollback(s, rid, oid, cid, leaseId, now).result == Ok(Done(RollbackSucceeded, RolledBack))
    requires SnapshotFor(s, oid).Some? && s.actions[oid].target in s.plans
    requires var p := SnapshotFor(s, oid).value.payload;
             Update(p, p.revision, fields, at) == Ok(s.plans[s.actions[oid].target])
    ensures var p := SnapshotFor(s, oid).value.payload;
            var t := ExecuteRollback(s, rid, oid, cid, leaseId, now).state;
            p.target in t.plans && t.plans[p.target] == p.(revision := p.revision + 2, updatedAt := now)
  {
    RollbackUndoes(s, rid, oid, cid, leaseId, now);
    UndoneIsIdentity(s, ExecuteRollback(s, rid, oid, cid, leaseId, now).state, rid, oid, SnapshotFor(s, oid).value,
                     fields, at, now);
  }

  lemma UndoneIsIdentity(s: State, t: State, rid: ActionId, oid: ActionId, snap: Snapshot, fields: Fields, at: Time,
                         now: Time)
    requires Undone(s, t, rid, oid, snap, now) && s.plans[s.actions[oid].target].target == s.actions[oid].target
    requires Update(snap.payload, snap.payload.revision, fields, at) == Ok(s.plans[s.actions[oid].target])
    ensures var p := snap.payload;
            p.target in t.plans && t.plans[p.target] == p.(revision := p.revision + 2, updatedAt := now)
  {
  }

  lemma FirstSnapshotCaptured(s: State, id: ActionId)
    requires Orderly(s) && SnapshotFor(s, id).Some?
    ensures CaptureOk(s, SnapshotFor(s, id).value) && SnapshotFor(s, id).value.actionId == id
  {
    FirstSnapshotFrom(s, 0, id);
  }

  lemma {:induction false} FirstSnapshotFrom(s: State, i: nat, id: ActionId)
    requires Orderly(s) && i <= |s.snapshots| && FirstSnapshot(s.snapshots[i..], id).Some?
    ensures var f := FirstSnapshot(s.snapshots[i..], id).value; CaptureOk(s, f) && f.actionId == id
    decreases |s.snapshots| - i
  {
    assert i < |s.snapshots|;
    assert CaptureOk(s, s.snapshots[i]);
    assert s.snapshots[i..][1..] == s.snapshots[i + 1..];
    if s.snapshots[i].actionId != id { FirstSnapshotFrom(s, i + 1, id); }
  }
}
