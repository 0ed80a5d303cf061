/** Where what the store holds comes from: in every run each decision was granted
    to an owner, each confirmation given by one who may give it, and each snapshot
    taken of the authorized plan, by an event of that run and in that order. */
module Provenance {
  import opened Types
  import opened Lifecycle
  import opened Plans
  import opened KillSwitch
  import opened Store
  import opened Gate
  import opened Executor
  import opened Service
  import opened Protocol
  import opened Invariant
  import opened Reachable
  import opened Conditions
  import opened Footprint
  import opened Theorems

  lemma SplitRun(max: nat, t0: Time, es: seq<Event>)
    requires es != []
    ensures After(max, t0, es) == Step(After(max, t0, es[..|es| - 1]), es[|es| - 1])
  {
  }

  // ----- authorization ----------------------------------------------------------

  /** The call was allowed, in state `s`, and this is the decision it got. */
  predicate Grants(s: State, k: Call, d: Decision) {
    && Permits(s.switches, k.request.environment)
    && MayBeAllowed(k.policy, k.who, k.request, k.Plan(), k.seen, k.now)
    && d.principal == k.who.subject && d.request == k.request && d.kind == k.policy.kind
    && d.decidedAt == (if k.now.Some? then k.now.value else k.planTime)
    && d.identity.targetDigest == k.seen.value
  }

  /** The call of an authorizing event, as the service judges it. */
  function CallOf(s: State, e: Event): Option<Call> {
    match e
    case AuthorizeRequest(call, seen) => Some(call.(seen := Observed(s, call.request.target, seen)))
    case RequestRollback(call, original, planned, seen) =>
      if original !in s.actions then None else
      var o := s.actions[original];
      Some(call.(request := RollbackRequest(o), seen := Observed(s, o.target, seen)))
    case _ => None
  }

  /** Event `e` granted this decision, in state `s`, for the action `id`. */
  predicate GrantedAt(s: State, e: Event, id: ActionId, d: Decision) {
    var k := CallOf(s, e);
    k.Some? && k.value.actionId == id && Grants(s, k.value, d)
  }

  lemma JudgedGrants(s: State, k: Call)
    requires Permits(s.switches, k.request.environment) && Judge(k).Allowed?
    ensures Grants(s, k, Judge(k).decision)
  {
    PolicyAllowsExactly(k.policy, k.who, k.request, k.Plan(), k.seen, k.now, k.actionId);
  }

  lemma AuthorizeGrants(s: State, k: Call, refs: Option<Refs>, id: ActionId)
    requires IndexOk(s.actions, s.index)
    requires var t := Authorize(s, k, refs).state;
             id in t.decisions && (id in s.decisions ==> t.decisions[id] != s.decisions[id])
    ensures k.actionId == id && Grants(s, k, Authorize(s, k, refs).state.decisions[id])
  {
    AuthorizeRegisters(s, k, refs);
    JudgedGrants(s, k);
  }

  /** A decision that was not there before this step was granted by it. */
  lemma DecisionsAreGranted(x: Sys, e: Event, id: ActionId)
    requires SysInv(x) && id in Step(x, e).st.decisions
    ensures (id in x.st.decisions && Step(x, e).st.decisions[id] == x.st.decisions[id])
            || GrantedAt(x.st, e, id, Step(x, e).st.decisions[id])
  {
    if Ordinary(e) { OrdinaryIsUneventful(x, e); return; }
    match e
    case AuthorizeRequest(call, seen) =>
      if !(id in x.st.decisions && Step(x, e).st.decisions[id] == x.st.decisions[id]) {
        AuthorizeGrants(x.st, CallOf(x.st, e).value, None, id);
      }
    case RequestRollback(call, original, planned, seen) => RollbackDecisionIsGranted(x, e, id);
    case AskConfirmation(aid, pending, now) => AskingTouchesBindings(x.st, aid, pending, now);
    case ConfirmAction(cid, version, actor, now) => ConfirmingKeepsDecisions(x.st, cid, version, actor, now);
    case CapturePlan(aid, version, seen, sid, now) => CapturingKeepsDecisions(x.st, e);
  }

  lemma RollbackDecisionIsGranted(x: Sys, e: Event, id: ActionId)
    requires SysInv(x) && e.RequestRollback? && id in Step(x, e).st.decisions
    ensures (id in x.st.decisions && Step(x, e).st.decisions[id] == x.st.decisions[id])
            || GrantedAt(x.st, e, id, Step(x, e).st.decisions[id])
  {
    var t := Step(x, e).st;
    if t != x.st && !(id in x.st.decisions && t.decisions[id] == x.st.decisions[id]) {
      var snap := SnapshotFor(x.st, e.original);
      AuthorizeGrants(x.st, CallOf(x.st, e).value, Some(Refs(e.original, snap.value.id)), id);
    }
  }

  lemma ConfirmingKeepsDecisions(s: State, cid: ConfirmationId, version: nat, actor: Subject, now: Time)
    ensures var t := Confirm(s, cid, version, actor, now).state;
            t.decisions == s.decisions && t.snapshots == s.snapshots
  {
    ConfirmingIs(s, cid, version, actor, now);
  }

  lemma CapturingKeepsDecisions(s: State, e: Event)
    requires e.CapturePlan?
    ensures var t := Effect(s, e); t.decisions == s.decisions && t.bindings == s.bindings
  {
    var p := StaleRead(s, e.seen);
    if p.Some? { CapturesExactly(s, e.id, e.version, p.value, e.sid, e.now); }
  }

  ghost predicate Granted(max: nat, t0: Time, es: seq<Event>, id: ActionId, d: Decision, j: nat) {
    j < |es| && GrantedAt(After(max, t0, es[..j]).st, es[j], id, d)
  }

  /** In every run each stored decision was granted, by an authorizing event of
      the run, to a verified owner whose authentication had not expired, for a
      scope of the policy, and while the environment was open. */
  lemma {:induction false} EveryDecisionWasGranted(max: nat, t0: Time, es: seq<Event>, id: ActionId)
    requires id in After(max, t0, es).st.decisions
    ensures exists j: nat :: Granted(max, t0, es, id, After(max, t0, es).st.decisions[id], j)
    decreases |es|
  {
    var before, e := es[..|es| - 1], es[|es| - 1];
    var x, d := After(max, t0, before), After(max, t0, es).st.decisions[id];
    Past(max, t0, before);
    DecisionsAreGranted(x, e, id);
    if GrantedAt(x.st, e, id, d) {
      assert Granted(max, t0, es, id, d, |es| - 1);
    } else {
      EveryDecisionWasGranted(max, t0, before, id);
      var j: nat :| Granted(max, t0, before, id, d, j);
      assert before[..j] == es[..j];
      assert Granted(max, t0, es, id, d, j);
    }
  }

  // ----- confirmation -------------------------------------------------------------

  /** Each confirmation is filed under its own id and for the decision it names,
      with that decision's rule; at most one is active for each action. */
  ghost predicate BindingsSound(s: State) {
    && (forall c :: c in s.bindings ==> BindingSound(s, c))
    && (forall c, d :: c in s.bindings && d in s.bindings && Rivalling(s.bindings[c], s.bindings[d]) ==> c == d)
  }

  /** Two active confirmations of one action. */
  predicate Rivalling(b: Binding, c: Binding) { Active(b) && Active(c) && b.actionId == c.actionId }

  predicate BindingSound(s: State, c: ConfirmationId)
    requires c in s.bindings
  {
    var b := s.bindings[c];
    && b.id == c && b.actionId in s.decisions
    && b.requester == s.decisions[b.actionId].principal && b.kind == s.decisions[b.actionId].kind
    && (b.state == BindingRequested || b.state == BindingConfirmed || b.state == BindingConsumed)
    && (b.state == BindingRequested <==> b.confirmedBy.None?)
    && (b.confirmedBy.Some? ==> MayConfirm(b.kind, b.requester, b.confirmedBy.value))
  }

  lemma ConsumingIsSound(s: State, t: State)
    requires BindingsSound(s) && OnlyConsumed(s, t)
    requires forall id :: id in s.decisions ==> id in t.decisions && t.decisions[id] == s.decisions[id]
    ensures BindingsSound(t)
  {
    forall c | c in t.bindings ensures BindingSound(t, c) { assert BindingSound(s, c); }
    forall c, d | c in t.bindings && d in t.bindings && Rivalling(t.bindings[c], t.bindings[d]) ensures c == d {
      assert Rivalling(s.bindings[c], s.bindings[d]);
    }
  }

  lemma AskingIsSound(s: State, id: ActionId, pending: ConfirmationId, now: Time)
    requires BindingsSound(s)
    ensures BindingsSound(RequestConfirmation(s, id, pending, now).state)
  {
    var t := RequestConfirmation(s, id, pending, now).state;
    AskingExactly(s, id, pending, now);
    AskingTouchesBindings(s, id, pending, now);
    forall c | c in t.bindings ensures BindingSound(t, c) { if c in s.bindings { assert BindingSound(s, c); } }
  }

  /** The confirmation that was pending is now given. */
  predicate Gave(s: State, t: State, cid: ConfirmationId, actor: Subject) {
    && cid in s.bindings && s.bindings[cid].state == BindingRequested
    && MayConfirm(s.bindings[cid].kind, s.bindings[cid].requester, actor)
    && t.bindings == s.bindings[s.bindings[cid].id :=
                                  s.bindings[cid].(confirmedBy := Some(actor), state := BindingConfirmed)]
  }

  lemma ConfirmingGives(s: State, cid: ConfirmationId, version: nat, actor: Subject, now: Time)
    ensures var t := Confirm(s, cid, version, actor, now).state;
            t.bindings == s.bindings || (Gave(s, t, cid, actor) && now < s.bindings[cid].expiresAt)
  {
    ConfirmingIs(s, cid, version, actor, now);
    var t := Confirm(s, cid, version, actor, now).state;
    if t != s {
      var b := BuildConfirmation(s.bindings[cid], actor, now).value;
      AdvanceKeepsBindings(PutBinding(s, b), b.actionId, version, Confirmed, actor, now);
    }
  }

  lemma GivingIsSound(s: State, t: State, cid: ConfirmationId, actor: Subject)
    requires BindingsSound(s) && Gave(s, t, cid, actor) && t.decisions == s.decisions
    ensures BindingsSound(t)
  {
    assert BindingSound(s, cid);
    forall c | c in t.bindings ensures BindingSound(t, c) { if c != cid { assert BindingSound(s, c); } }
    forall c, d | c in t.bindings && d in t.bindings && Rivalling(t.bindings[c], t.bindings[d]) ensures c == d {
      assert Rivalling(s.bindings[c], s.bindings[d]);
    }
  }

  lemma ConfirmIsSound(s: State, cid: ConfirmationId, version: nat, actor: Subject, now: Time)
    requires BindingsSound(s)
    ensures BindingsSound(Confirm(s, cid, version, actor, now).state)
  {
    var t := Confirm(s, cid, version, actor, now).state;
    ConfirmingGives(s, cid, version, actor, now);
    ConfirmingKeepsDecisions(s, cid, version, actor, now);
    if Gave(s, t, cid, actor) { GivingIsSound(s, t, cid, actor); } else { ConsumingIsSound(s, t); }
  }

  /** The steps that at most use up confirmations. */
  lemma OtherStepsConsume(x: Sys, e: Event)
    requires SysInv(x) && !e.AskConfirmation? && !e.ConfirmAction?
    ensures OnlyConsumed(x.st, Step(x, e).st)
  {
    if Ordinary(e) { OrdinaryIsUneventful(x, e); }
    else if e.CapturePlan? { CapturingKeepsDecisions(x.st, e); }
    else { AuthorizingKeepsBindings(x, e); }
  }

  lemma StepIsSound(x: Sys, e: Event)
    requires SysInv(x) && BindingsSound(x.st)
    ensures BindingsSound(Step(x, e).st)
  {
    if e.AskConfirmation? { AskingIsSound(x.st, e.id, e.pending, e.now); }
    else if e.ConfirmAction? { ConfirmIsSound(x.st, e.cid, e.version, e.actor, e.now); }
    else {
      OtherStepsConsume(x, e);
      DecisionsStand(x, e);
      ConsumingIsSound(x.st, Step(x, e).st);
    }
  }

  lemma DecisionsStand(x: Sys, e: Event)
    requires SysInv(x)
    ensures var t := Step(x, e).st;
            forall id :: id in x.st.decisions ==> id in t.decisions && t.decisions[id] == x.st.decisions[id]
  {
    StepKeeps(x, e);
    forall id | id in x.st.decisions
      ensures id in Step(x, e).st.decisions && Step(x, e).st.decisions[id] == x.st.decisions[id] {
      assert IdEvolves(x.st, Step(x, e).st, id);
    }
  }

  lemma AuthorizingKeepsBindings(x: Sys, e: Event)
    requires SysInv(x) && (e.AuthorizeRequest? || e.RequestRollback?)
    ensures Step(x, e).st.bindings == x.st.bindings && Step(x, e).st.snapshots == x.st.snapshots
  {
    var t := Step(x, e).st;
    if e.AuthorizeRequest? {
      AuthorizeRegisters(x.st, CallOf(x.st, e).value, None);
    } else if t != x.st {
      var snap := SnapshotFor(x.st, e.original);
      AuthorizeRegisters(x.st, CallOf(x.st, e).value, Some(Refs(e.original, snap.value.id)));
    }
  }

  /** In every run, at most one confirmation of an action is pending or given at
      a time, and each that was given was given by one who may: the requester, or
      under distinct approval somebody else. */
  lemma {:induction false} OneActiveConfirmation(max: nat, t0: Time, es: seq<Event>)
    ensures BindingsSound(After(max, t0, es).st)
    decreases |es|
  {
    if es == [] { return; }
    OneActiveConfirmation(max, t0, es[..|es| - 1]);
    Past(max, t0, es[..|es| - 1]);
    StepIsSound(After(max, t0, es[..|es| - 1]), es[|es| - 1]);
  }

  // ----- who confirmed an action -----------------------------------------------------

  /** Event `e` confirmed the action: its pending confirmation was in time, and
      the actor was its requester. */
  predicate ConfirmedAt(s: State, e: Event, id: ActionId, actor: Subject) {
    && e.ConfirmAction? && e.actor == actor && Confirmable(s, e.cid, e.version, actor, e.now)
    && s.bindings[e.cid].actionId == id
  }

  lemma ApprovalIsGiven(s: State, cid: ConfirmationId, version: nat, actor: Subject, now: Time, id: ActionId)
    requires var t := Confirm(s, cid, version, actor, now).state;
             id in t.actions && !(id in s.actions && t.actions[id].approver == s.actions[id].approver)
    ensures Confirmable(s, cid, version, actor, now) && s.bindings[cid].actionId == id
    ensures Confirm(s, cid, version, actor, now).state.actions[id].approver == Some(actor)
  {
    ConfirmingIs(s, cid, version, actor, now);
    ConfirmsExactly(s, cid, version, actor, now);
    var b := BuildConfirmation(s.bindings[cid], actor, now).value;
    if Confirm(s, cid, version, actor, now).result.Err? {
      AdvanceErrChangesNothing(PutBinding(s, b), b.actionId, version, actor, now);
    }
  }

  lemma AdvanceErrChangesNothing(s: State, id: ActionId, version: nat, actor: Subject, now: Time)
    ensures var r := AdvanceAction(s, id, version, Confirmed, actor, now); r.result.Err? ==> r.state == s
  {
  }

  /** A confirmer that was not recorded before this step was recorded by it. */
  lemma ApproversAreConfirmers(x: Sys, e: Event, id: ActionId)
    requires SysInv(x) && id in Step(x, e).st.actions && Step(x, e).st.actions[id].approver.Some?
    ensures (id in x.st.actions && x.st.actions[id].approver == Step(x, e).st.actions[id].approver)
            || ConfirmedAt(x.st, e, id, Step(x, e).st.actions[id].approver.value)
  {
    if Ordinary(e) { OrdinaryIsUneventful(x, e); return; }
    match e
    case AuthorizeRequest(call, seen) => NewActionsAreUnconfirmed(x, e, id);
    case RequestRollback(call, original, planned, seen) => NewActionsAreUnconfirmed(x, e, id);
    case AskConfirmation(aid, pending, now) => AskingTouchesBindings(x.st, aid, pending, now);
    case ConfirmAction(cid, version, actor, now) =>
      if !(id in x.st.actions && x.st.actions[id].approver == Step(x, e).st.actions[id].approver) {
        ApprovalIsGiven(x.st, cid, version, actor, now, id);
      }
    case CapturePlan(aid, version, seen, sid, now) => CapturingKeepsApprovers(x.st, e, id);
  }

  lemma CapturingKeepsApprovers(s: State, e: Event, id: ActionId)
    requires e.CapturePlan? && id in Effect(s, e).actions
    ensures id in s.actions && Effect(s, e).actions[id].approver == s.actions[id].approver
  {
    var p := StaleRead(s, e.seen);
    if p.Some? { CapturesExactly(s, e.id, e.version, p.value, e.sid, e.now); }
  }

  lemma NewActionsAreUnconfirmed(x: Sys, e: Event, id: ActionId)
    requires SysInv(x) && (e.AuthorizeRequest? || e.RequestRollback?) && id in Step(x, e).st.actions
    ensures (id in x.st.actions && Step(x, e).st.actions[id] == x.st.actions[id])
            || (id !in x.st.actions && Step(x, e).st.actions[id].approver.None?
                && Step(x, e).st.actions[id].state == ConfirmationRequired)
  {
    var t := Step(x, e).st;
    if e.AuthorizeRequest? {
      AuthorizeRegisters(x.st, CallOf(x.st, e).value, None);
    } else if t != x.st {
      var snap := SnapshotFor(x.st, e.original);
      AuthorizeRegisters(x.st, CallOf(x.st, e).value, Some(Refs(e.original, snap.value.id)));
    }
  }

  ghost predicate ConfirmedIn(max: nat, t0: Time, es: seq<Event>, id: ActionId, actor: Subject, j: nat) {
    j < |es| && ConfirmedAt(After(max, t0, es[..j]).st, es[j], id, actor)
  }

  /** In every run each action with a confirmer was confirmed by an event of the
      run, in time, by the one who requested it. */
  lemma {:induction false} EveryActionWasConfirmed(max: nat, t0: Time, es: seq<Event>, id: ActionId)
    requires id in After(max, t0, es).st.actions && After(max, t0, es).st.actions[id].approver.Some?
    ensures exists j: nat :: ConfirmedIn(max, t0, es, id, After(max, t0, es).st.actions[id].approver.value, j)
    decreases |es|
  {
    var before, e := es[..|es| - 1], es[|es| - 1];
    var x, p := After(max, t0, before), After(max, t0, es).st.actions[id].approver.value;
    Past(max, t0, before);
    ApproversAreConfirmers(x, e, id);
    if ConfirmedAt(x.st, e, id, p) {
      assert ConfirmedIn(max, t0, es, id, p, |es| - 1);
    } else {
      EveryActionWasConfirmed(max, t0, before, id);
      var j: nat :| ConfirmedIn(max, t0, before, id, p, j);
      assert before[..j] == es[..j];
      assert ConfirmedIn(max, t0, es, id, p, j);
    }
  }

  // ----- distinct approval --------------------------------------------------------------

  /** An action is registered for owner confirmation, whatever rule its decision
      carries, and its requester is the one the decision was given to. */
  ghost predicate OwnersOnly(s: State) {
    forall id :: id in s.actions ==>
      && s.actions[id].kind == OwnerConfirmation && id in s.decisions
      && s.actions[id].requester == s.decisions[id].principal
  }

  /** The action an authorizing event adds. */
  lemma NewActionsAreOwned(x: Sys, e: Event, id: ActionId)
    requires SysInv(x) && (e.AuthorizeRequest? || e.RequestRollback?)
    requires id in Step(x, e).st.actions && id !in x.st.actions
    ensures var t := Step(x, e).st;
            t.actions[id].kind == OwnerConfirmation && id in t.decisions
            && t.actions[id].requester == t.decisions[id].principal
  {
    if e.AuthorizeRequest? {
      AuthorizeRegisters(x.st, CallOf(x.st, e).value, None);
    } else {
      var snap := SnapshotFor(x.st, e.original);
      AuthorizeRegisters(x.st, CallOf(x.st, e).value, Some(Refs(e.original, snap.value.id)));
    }
  }

  /** Only authorizing events add actions. */
  lemma OthersAddNothing(x: Sys, e: Event)
    requires !(e.AuthorizeRequest? || e.RequestRollback?)
    ensures Step(x, e).st.actions.Keys == x.st.actions.Keys
  {
    if Ordinary(e) { OrdinaryIsUneventful(x, e); }
    else if e.AskConfirmation? { AskingTouchesBindings(x.st, e.id, e.pending, e.now); }
    else if e.ConfirmAction? { ConfirmingIs(x.st, e.cid, e.version, e.actor, e.now); }
    else {
      var p := StaleRead(x.st, e.seen);
      if p.Some? { CapturesExactly(x.st, e.id, e.version, p.value, e.sid, e.now); }
    }
  }

  lemma StepIsOwned(x: Sys, e: Event)
    requires SysInv(x) && OwnersOnly(x.st)
    ensures OwnersOnly(Step(x, e).st)
  {
    var s, t := x.st, Step(x, e).st;
    StepKeeps(x, e);
    forall id | id in t.actions
      ensures t.actions[id].kind == OwnerConfirmation && id in t.decisions
              && t.actions[id].requester == t.decisions[id].principal {
      if id in s.actions {
        assert IdEvolves(s, t, id);
        assert t.actions[id].Fixed() == s.actions[id].Fixed();
      } else {
        if !(e.AuthorizeRequest? || e.RequestRollback?) { OthersAddNothing(x, e); }
        NewActionsAreOwned(x, e, id);
      }
    }
  }

  lemma {:induction false} RunIsOwned(max: nat, t0: Time, es: seq<Event>)
    ensures OwnersOnly(After(max, t0, es).st)
    decreases |es|
  {
    if es == [] { return; }
    RunIsOwned(max, t0, es[..|es| - 1]);
    Past(max, t0, es[..|es| - 1]);
    StepIsOwned(After(max, t0, es[..|es| - 1]), es[|es| - 1]);
  }

  /** The confirming act under both rules at once. */
  lemma NobodyMayConfirm(s: State, e: Event, id: ActionId, actor: Subject)
    requires BindingsSound(s) && OwnersOnly(s) && id in s.decisions && s.decisions[id].kind == DistinctApproval
    ensures !ConfirmedAt(s, e, id, actor)
  {
    if e.ConfirmAction? && e.cid in s.bindings { assert BindingSound(s, e.cid); }
  }

  /** A policy that asks for distinct approval stops everything: the confirmation
      wants somebody else than the requester, the action wants the requester, so
      in no run is such an action ever confirmed. */
  lemma DistinctApprovalIsStuck(max: nat, t0: Time, es: seq<Event>, id: ActionId)
    requires var s := After(max, t0, es).st; id in s.actions && id in s.decisions
    requires After(max, t0, es).st.decisions[id].kind == DistinctApproval
    ensures var a := After(max, t0, es).st.actions[id]; a.state == ConfirmationRequired && a.approver.None?
  {
    Past(max, t0, es);
    var s := After(max, t0, es).st;
    assert ActionOk(s, id);
    if s.actions[id].approver.Some? {
      EveryActionWasConfirmed(max, t0, es, id);
      var p := s.actions[id].approver.value;
      var j: nat :| ConfirmedIn(max, t0, es, id, p, j);
      ConfirmedEarlier(max, t0, es, id, p, j);
    }
  }

  lemma ConfirmedEarlier(max: nat, t0: Time, es: seq<Event>, id: ActionId, p: Subject, j: nat)
    requires ConfirmedIn(max, t0, es, id, p, j) && id in After(max, t0, es).st.decisions
    ensures After(max, t0, es).st.decisions[id].kind != DistinctApproval
  {
    var x := After(max, t0, es[..j]);
    assert es[..j] + es[j..] == es;
    RunSplits(Start(max, t0), es[..j], es[j..]);
    OneActiveConfirmation(max, t0, es[..j]);
    RunIsOwned(max, t0, es[..j]);
    Future(max, t0, es[..j], es[j..]);
    assert ActionOk(x.st, id);
    assert IdEvolves(x.st, After(max, t0, es).st, id);
    if x.st.decisions[id].kind == DistinctApproval { NobodyMayConfirm(x.st, es[j], id, p); }
  }
}
