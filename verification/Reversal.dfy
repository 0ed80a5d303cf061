/** Which actions can be rolled back, over whole runs: exactly the updates that
    got as far as their snapshot and whose target stands one revision past it. */
module Reversal {
  import opened Types
  import opened Lifecycle
  import opened Plans
  import opened KillSwitch
  import opened Store
  import opened Gate
  import opened Executor
  import opened Service
  import opened Protocol
  import opened Invariant
  import opened Reachable
  import opened Conditions
  import opened Footprint
  import opened Theorems
  import B = Preservation
  import P = Provenance

  // ----- every captured action has its snapshot -----------------------------------

  ghost predicate SnapshotsTaken(s: State) { forall id :: PastCapture(s, id) ==> SnapshotFor(s, id).Some? }

  lemma {:induction false} MoreSnapshots(snaps: seq<Snapshot>, snap: Snapshot, id: ActionId)
    ensures FirstSnapshot(snaps + [snap], id).Some? <==> FirstSnapshot(snaps, id).Some? || snap.actionId == id
  {
    if snaps == [] {
      assert snaps + [snap] == [snap] && FirstSnapshot([], id).None?;
    } else {
      assert (snaps + [snap])[0] == snaps[0] && (snaps + [snap])[1..] == snaps[1..] + [snap];
      MoreSnapshots(snaps[1..], snap, id);
    }
  }

  lemma CaptureTakes(s: State, id: ActionId, version: nat, seen: ProjectPlan, sid: SnapshotId, now: Time)
    requires SnapshotsTaken(s)
    ensures SnapshotsTaken(Capture(s, id, version, seen, sid, now).state)
  {
    CapturesExactly(s, id, version, seen, sid, now);
    var t := Capture(s, id, version, seen, sid, now).state;
    if t != s {
      forall x | PastCapture(t, x) ensures SnapshotFor(t, x).Some? {
        MoreSnapshots(s.snapshots, t.snapshots[|s.snapshots|], x);
        if x != id { assert PastCapture(s, x); }
      }
    }
  }

  lemma ConfirmingCapturesNothing(s: State, cid: ConfirmationId, version: nat, actor: Subject, now: Time)
    ensures var t := Confirm(s, cid, version, actor, now).state; NoNewcomers(s, t) && t.snapshots == s.snapshots
  {
    ConfirmingIs(s, cid, version, actor, now);
  }

  lemma AuthorizingCapturesNothing(x: Sys, e: Event)
    requires SysInv(x) && (e.AuthorizeRequest? || e.RequestRollback?)
    ensures var t := Step(x, e).st; NoNewcomers(x.st, t) && t.snapshots == x.st.snapshots
  {
    var t := Step(x, e).st;
    P.AuthorizingKeepsBindings(x, e);
    forall id | PastCapture(t, id) ensures PastCapture(x.st, id) {
      P.NewActionsAreUnconfirmed(x, e, id);
      NotNew(x.st, t, id);
    }
  }

  lemma NotNew(s: State, t: State, id: ActionId)
    requires PastCapture(t, id)
    requires (id in s.actions && t.actions[id] == s.actions[id]) || t.actions[id].state == ConfirmationRequired
    ensures PastCapture(s, id)
  {
  }

  lemma AskingCapturesNothing(s: State, id: ActionId, pending: ConfirmationId, now: Time)
    ensures var t := RequestConfirmation(s, id, pending, now).state; NoNewcomers(s, t) && t.snapshots == s.snapshots
  {
    AskingTouchesBindings(s, id, pending, now);
  }

  /** Only a capture takes an action past its capture. */
  lemma OthersCaptureNothing(x: Sys, e: Event)
    requires SysInv(x) && !e.CapturePlan?
    ensures var t := Step(x, e).st; NoNewcomers(x.st, t) && t.snapshots == x.st.snapshots
  {
    if Ordinary(e) { OrdinaryIsUneventful(x, e); }
    else if e.AuthorizeRequest? || e.RequestRollback? { AuthorizingCapturesNothing(x, e); }
    else if e.AskConfirmation? { AskingCapturesNothing(x.st, e.id, e.pending, e.now); }
    else { ConfirmingCapturesNothing(x.st, e.cid, e.version, e.actor, e.now); }
  }

  lemma StepTakes(x: Sys, e: Event)
    requires SysInv(x) && SnapshotsTaken(x.st)
    ensures SnapshotsTaken(Step(x, e).st)
  {
    if e.CapturePlan? {
      var p := StaleRead(x.st, e.seen);
      if p.Some? { CaptureTakes(x.st, e.id, e.version, p.value, e.sid, e.now); }
    } else {
      OthersCaptureNothing(x, e);
    }
  }

  lemma {:induction false} RunTakes(max: nat, t0: Time, es: seq<Event>)
    ensures SnapshotsTaken(After(max, t0, es).st)
    decreases |es|
  {
    if es == [] { return; }
    RunTakes(max, t0, es[..|es| - 1]);
    Past(max, t0, es[..|es| - 1]);
    StepTakes(After(max, t0, es[..|es| - 1]), es[|es| - 1]);
  }

  // ----- what is safe --------------------------------------------------------------

  lemma TakenHoldsAuthorized(s: State, id: ActionId)
    requires Inv(s) && SnapshotFor(s, id).Some? && id in s.actions
    ensures HoldsAuthorized(s.actions[id], SnapshotFor(s, id).value) && PastCapture(s, id)
  {
    FirstSnapshotIsOne(s.snapshots, id);
    var i :| 0 <= i < |s.snapshots| && s.snapshots[i] == SnapshotFor(s, id).value;
    assert SnapshotOk(s, s.snapshots[i]) && ActionOk(s, id);
  }

  lemma SafeWhen(s: State, id: ActionId)
    requires Inv(s) && SnapshotsTaken(s) && id in s.actions
    ensures id in s.decisions && s.actions[id].target in s.plans
    ensures RollbackSafety(s, id) == Safe <==>
      && s.actions[id].operation == UpdateProjectPlan && PastCapture(s, id)
      && s.plans[s.actions[id].target].revision == s.actions[id].planRevision + 1
  {
    var a := s.actions[id];
    assert ActionOk(s, id);
    B.LoggedIsStaging(s.plans, s.log, a.target, s.decisions[id].identity.targetDigest);
    SafeExactly(s, id);
    if SnapshotFor(s, id).Some? { TakenHoldsAuthorized(s, id); }
    if a.operation == UpdateProjectPlan { MutationIsReversible(s.decisions[id].Mutation()); }
  }

  lemma MutationIsReversible(m: Fields)
    requires m.Keys <= ALLOWED_FIELDS
    ensures forall f :: f in m ==> f.Title? || f.Objective?
  {
    forall f | f in m ensures f.Title? || f.Objective? { assert f in ALLOWED_FIELDS; }
  }

  /** In every run a rollback of an action is planned as safe if and only if the
      action is an update that got as far as its snapshot and its target stands
      exactly one revision past the authorized one; so never before the target
      has moved, and never again after it has moved twice. */
  lemma SafeExactlyOnePast(max: nat, t0: Time, es: seq<Event>, id: ActionId)
    requires id in After(max, t0, es).st.actions
    ensures var s := After(max, t0, es).st;
            var a := s.actions[id];
            && id in s.decisions && a.target in s.plans
            && (RollbackSafety(s, id) == Safe <==>
                  && a.operation == UpdateProjectPlan && PastCapture(s, id)
                  && s.plans[a.target].revision == a.planRevision + 1)
  {
    Past(max, t0, es);
    RunTakes(max, t0, es);
    SafeWhen(After(max, t0, es).st, id);
  }

  // ----- asking for it ---------------------------------------------------------------

  /** An owner asks in time, staging is open, the plan is enabled, nobody has asked
      before, and there is room. */
  predicate Acceptable(s: State, k: Call, original: ActionId)
    requires original in s.actions && s.actions[original].target in s.plans
  {
    var o := s.actions[original];
    && Permits(s.switches, Staging) && IsOwner(k.who, k.now) && (o.target, Staging) in k.policy.scopes
    && s.plans[o.target].enabled && (k.now.Some? ==> k.now.value < k.planTime + 900)
    && Key(o.target, RollbackProjectPlan, original) !in s.index
    && k.actionId !in s.actions && |s.actions| < s.maxRecords
  }

  /** The rollback action is there, for the plan as it stands, and waits for its
      confirmation. */
  predicate RollbackWaits(s: State, t: State, k: Call, original: ActionId)
    requires original in s.actions && s.actions[original].target in s.plans
  {
    && k.actionId in t.actions && k.actionId in t.decisions
    && var a, o := t.actions[k.actionId], s.actions[original];
       && a.state == ConfirmationRequired && a.operation == RollbackProjectPlan && a.rollbackOf == Some(original)
       && a.target == o.target && a.environment == Staging && a.requester == k.who.subject && a.token == original
       && a.planRevision == s.plans[o.target].revision
       && t.decisions[k.actionId].identity.targetDigest == s.plans[o.target]
       && t.actions == s.actions[k.actionId := a] && t.plans == s.plans
  }

  /** The call as it is judged. */
  function AsAsked(s: State, k: Call, original: ActionId): Call
    requires original in s.actions && s.actions[original].target in s.plans
  {
    k.(request := RollbackRequest(s.actions[original]), seen := Some(s.plans[s.actions[original].target]))
  }

  lemma AskingIsAllowed(s: State, k: Call, original: ActionId)
    requires Inv(s) && original in s.actions && s.actions[original].target in s.plans && Acceptable(s, k, original)
    ensures Judge(AsAsked(s, k, original)).Allowed? && FindByKey(s, AsAsked(s, k, original).request.IndexKey()).None?
    ensures Permits(s.switches, AsAsked(s, k, original).request.environment)
  {
    var o, q := s.actions[original], AsAsked(s, k, original);
    assert ActionOk(s, original);
    assert StoredOk(s.plans, s.log, o.target);
    B.LoggedIsStaging(s.plans, s.log, o.target, s.plans[o.target]);
    PolicyAllowsExactly(q.policy, q.who, q.request, q.Plan(), q.seen, q.now, q.actionId);
  }

  lemma AllowedIsRegistered(s: State, k: Call, refs: Refs)
    requires Judge(k).Allowed? && refs.original != k.actionId && |s.actions| < s.maxRecords && k.actionId !in s.actions
    requires k.request.IndexKey() !in s.index
    ensures RegisterAllowed(s, Judge(k).decision, Some(refs)).result.Ok?
  {
    var d := Judge(k).decision;
    var a := FreshAction(d, Some(refs));
    var planned := Advance(a, Planned, Some(d.decidedAt), None);
    assert planned == Ok(a.(state := Planned, version := 1));
    var waiting := Advance(planned.value, ConfirmationRequired, Some(d.decidedAt), None);
    assert waiting == Ok(a.(state := ConfirmationRequired, version := 2));
    assert waiting.value.IndexKey() == k.request.IndexKey();
  }

  lemma AuthorizeAllowed(s: State, k: Call, refs: Refs)
    requires Permits(s.switches, k.request.environment) && FindByKey(s, k.request.IndexKey()).None?
    requires Judge(k).Allowed? && RegisterAllowed(s, Judge(k).decision, Some(refs)).result.Ok?
    ensures Authorize(s, k, Some(refs)).result == Ok(Allowed(Judge(k).decision))
  {
  }

  lemma AskingRegisters(s: State, k: Call, original: ActionId, snap: SnapshotId)
    requires Inv(s) && original in s.actions && s.actions[original].target in s.plans && Acceptable(s, k, original)
    ensures RollbackWaits(s, Authorize(s, AsAsked(s, k, original), Some(Refs(original, snap))).state, k, original)
  {
    var q, refs := AsAsked(s, k, original), Refs(original, snap);
    assert ActionOk(s, original);
    AskingIsAllowed(s, k, original);
    AllowedIsRegistered(s, q, refs);
    AuthorizeAllowed(s, q, refs);
    RegisteredWindow(s, q, Some(refs));
  }

  lemma AskingSucceeds(s: State, k: Call, original: ActionId, snap: SnapshotId)
    requires Inv(s) && original in s.actions && s.actions[original].target in s.plans && Acceptable(s, k, original)
    ensures var r := Authorize(s, AsAsked(s, k, original), Some(Refs(original, snap))).result; r.Ok? && r.value.Allowed?
  {
    var q, refs := AsAsked(s, k, original), Refs(original, snap);
    assert ActionOk(s, original);
    AskingIsAllowed(s, k, original);
    AllowedIsRegistered(s, q, refs);
    AuthorizeAllowed(s, q, refs);
  }

  /** Reading the target's plan as it stands. */
  predicate ReadsCurrent(s: State, target: Target, i: nat) {
    target in s.plans && i < |s.log| && s.log[i].target == target && s.log[i].after == s.plans[target]
  }

  lemma RegisterIs(s: State, k: Call, original: ActionId, i: nat)
    requires original in s.actions && original in s.decisions && ReadsCurrent(s, s.actions[original].target, i)
    requires s.log[i].after.target == s.actions[original].target && RollbackSafety(s, original) == Safe
    ensures SnapshotFor(s, original).Some?
    ensures RegisterRollback(s, k, original, i, i) ==
            Authorize(s, AsAsked(s, k, original), Some(Refs(original, SnapshotFor(s, original).value.id))).state
  {
  }

  lemma EventAsks(x: Sys, k: Call, original: ActionId, i: nat)
    requires SysInv(x) && original in x.st.actions && original in x.st.decisions
    requires ReadsCurrent(x.st, x.st.actions[original].target, i) && RollbackSafety(x.st, original) == Safe
    ensures SnapshotFor(x.st, original).Some?
    ensures Step(x, RequestRollback(k, original, i, i)).st ==
            Authorize(x.st, AsAsked(x.st, k, original),
                      Some(Refs(original, SnapshotFor(x.st, original).value.id))).state
  {
    assert StoredOk(x.st.plans, x.st.log, x.st.actions[original].target);
    RegisterIs(x.st, k, original, i);
  }

  /** In every run an update that got as far as its snapshot, with its target one
      revision on, can be asked back: the request registers a rollback action that
      waits for confirmation, whoever wrote that revision. */
  lemma SafeCanBeAskedBack(max: nat, t0: Time, es: seq<Event>, k: Call, id: ActionId, i: nat)
    requires var s := After(max, t0, es).st;
             && id in s.actions && s.actions[id].operation == UpdateProjectPlan && PastCapture(s, id)
             && ReadsCurrent(s, s.actions[id].target, i) && Acceptable(s, k, id)
             && s.plans[s.actions[id].target].revision == s.actions[id].planRevision + 1
    ensures var x := After(max, t0, es); RollbackWaits(x.st, Step(x, RequestRollback(k, id, i, i)).st, k, id)
  {
    var x := After(max, t0, es);
    Past(max, t0, es);
    SafeExactlyOnePast(max, t0, es, id);
    EventAsks(x, k, id, i);
    AskingRegisters(x.st, k, id, SnapshotFor(x.st, id).value.id);
  }
}
