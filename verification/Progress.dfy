/** What the control plane can do: from every reachable state a fresh request
    can be carried through to VERIFIED SUCCESS.  The safety theorems are
    therefore about runs in which things really happen. */
module Progress {
  import opened Types
  import opened Lifecycle
  import opened Plans
  import opened KillSwitch
  import opened Store
  import opened Gate
  import opened Executor
  import opened Service
  import opened Protocol
  import opened Invariant
  import opened Reachable
  import A = Alone
  import P = Preservation
  import W = Stepwise

  // ----- reaching ---------------------------------------------------------------

  ghost predicate CanReach(x: Sys, y: Sys) { exists es :: Run(x, es) == y }

  lemma CanStay(x: Sys)
    ensures CanReach(x, x)
  {
    assert Run(x, []) == x;
  }

  lemma CanGoOn(x: Sys, y: Sys, e: Event)
    requires CanReach(x, y)
    ensures CanReach(x, Protocol.Step(y, e))
  {
    var es :| Run(x, es) == y;
    assert (es + [e])[..|es|] == es;
    assert Run(x, es + [e]) == Protocol.Step(y, e);
  }

  lemma CanJoin(x: Sys, y: Sys, z: Sys)
    requires CanReach(x, y) && CanReach(y, z)
    ensures CanReach(x, z)
  {
    var es :| Run(x, es) == y;
    var fs :| Run(y, fs) == z;
    RunSplits(x, es, fs);
  }

  lemma ReachedIsOk(x: Sys, y: Sys)
    requires SysInv(x) && CanReach(x, y)
    ensures SysInv(y)
  {
    var es :| Run(x, es) == y;
    RunKeeps(x, es);
  }

  /** A caller's path is a run of its own steps. */
  lemma {:induction false} PathReaches(x: Sys, u: nat, g: W.Given, ms: seq<Move>, i: nat)
    requires i < |ms| && W.IsPath(g, ms) && u in x.threads && ms[0] == Move(x.st, x.threads[u])
    ensures CanReach(x, Sys(ms[i].state, x.threads[u := ms[i].pc]))
    decreases i
  {
    if i == 0 {
      CanStay(x);
      assert x.threads[u := x.threads[u]] == x.threads;
      return;
    }
    PathReaches(x, u, g, ms, i - 1);
    var k := i - 1;
    assert W.Link(g, ms[k], ms[k + 1]);
    var y := Sys(ms[k].state, x.threads[u := ms[k].pc]);
    CanGoOn(x, y, Continue(u, g.cid, g.lid));
    assert y.threads[u := ms[i].pc] == x.threads[u := ms[i].pc];
  }

  lemma LeadsReaches(x: Sys, u: nat, g: W.Given, b: Move)
    requires u in x.threads && W.Leads(g, Move(x.st, x.threads[u]), b)
    ensures CanReach(x, Sys(b.state, x.threads[u := b.pc]))
  {
    var ms :| |ms| > 0 && W.IsPath(g, ms) && ms[0] == Move(x.st, x.threads[u]) && ms[|ms| - 1] == b;
    PathReaches(x, u, g, ms, |ms| - 1);
  }

  // ----- a fresh request ----------------------------------------------------------

  /** Everything the world has to offer a request for it to succeed. */
  predicate Fresh(s: State, k: Call, now: Time) {
    var id, r := k.actionId, k.request;
    && k.now == Some(now) && now < k.planTime + PLAN_TTL
    && k.who.verified && k.who.owner && now < k.who.expiresAt
    && (r.target, r.environment) in k.policy.scopes && k.policy.kind == OwnerConfirmation
    && r.operation == UpdateProjectPlan && r.environment == Staging && FieldsAllowed(r)
    && r.target in s.plans && s.plans[r.target].enabled && Acceptable(s.plans[r.target], MutationFields(r.metadata))
    && id !in s.actions && id !in s.evidence && id !in s.leases && r.IndexKey() !in s.index
    && |s.actions| < s.maxRecords && |s.bindings| < MAX_BINDINGS && Cid(k, now) !in s.bindings
    && SwitchFor(s.switches, Staging).state == Disengaged
  }

  function Plan(s: State, k: Call): ProjectPlan
    requires k.request.target in s.plans
  {
    s.plans[k.request.target]
  }

  function DecisionOf(s: State, k: Call, now: Time): Decision
    requires k.request.target in s.plans
  {
    var p := Plan(s, k);
    Decision(Identity(k.actionId, k.planId, k.planDigest, p.revision, p, k.policy.version, k.who.subject,
                      k.request.operation, k.request.target, k.request.environment),
             k.request, k.who.subject, now, Min(now + DECISION_TTL, k.planTime + PLAN_TTL),
             OwnerConfirmation, k.planTime + PLAN_TTL)
  }

  function ActionAt(s: State, k: Call, now: Time, st: LifecycleState, version: nat): Action
    requires k.request.target in s.plans
  {
    FreshAction(DecisionOf(s, k, now), None).(
      state := st, version := version, approver := if version >= 3 then Some(k.who.subject) else None)
  }

  function Cid(k: Call, now: Time): ConfirmationId { ConfirmationId(k.actionId, k.who.subject, now) }

  function BindingAt(s: State, k: Call, now: Time): Binding
    requires k.request.target in s.plans
  {
    Binding(Cid(k, now), k.actionId, k.who.subject, OwnerConfirmation, now,
            Min(DecisionOf(s, k, now).expiresAt, now + CONFIRMATION_TTL), None, BindingRequested)
  }

  function Registered(s: State, k: Call, now: Time): State
    requires k.request.target in s.plans
  {
    s.(actions := s.actions[k.actionId := ActionAt(s, k, now, ConfirmationRequired, 2)],
       decisions := s.decisions[k.actionId := DecisionOf(s, k, now)],
       index := s.index[k.request.IndexKey() := k.actionId])
  }

  function Asked(s: State, k: Call, now: Time): State
    requires k.request.target in s.plans
  {
    Registered(s, k, now).(bindings := s.bindings[Cid(k, now) := BindingAt(s, k, now)])
  }

  function Approved(s: State, k: Call, now: Time): State
    requires k.request.target in s.plans
  {
    Registered(s, k, now).(
      actions := s.actions[k.actionId := ActionAt(s, k, now, Confirmed, 3)],
      bindings := s.bindings[Cid(k, now) := Confirmation(s, k, now)])
  }

  function SnapOf(s: State, k: Call, sid: SnapshotId): Snapshot
    requires k.request.target in s.plans
  {
    var p := Plan(s, k);
    Snapshot(sid, k.actionId, p.target, p.environment, p.revision, p)
  }

  function Captured(s: State, k: Call, now: Time, sid: SnapshotId): State
    requires k.request.target in s.plans
  {
    Approved(s, k, now).(
      actions := s.actions[k.actionId := ActionAt(s, k, now, SnapshotCaptured, 4)],
      snapshots := s.snapshots + [SnapOf(s, k, sid)])
  }

  function LeasedAt(s: State, k: Call, now: Time, sid: SnapshotId, lid: LeaseId): State
    requires k.request.target in s.plans
  {
    Captured(s, k, now, sid).(
      actions := s.actions[k.actionId := ActionAt(s, k, now, Leased, 5)],
      leases := s.leases[k.actionId := Lease(lid, k.actionId, 1, true, now, now + LEASE_TTL, 5)])
  }

  // ----- each event takes it one stage further ----------------------------------------

  lemma Judged(s: State, k: Call, now: Time)
    requires Fresh(s, k, now) && Plan(s, k).target == k.request.target && Plan(s, k).environment == Staging
    requires Plan(s, k).revision >= 1
    ensures Judge(k.(seen := Some(Plan(s, k)))) == Allowed(DecisionOf(s, k, now))
  {
  }

  /** The action of an allowed request waits for confirmation, two steps on. */
  lemma WaitsAt(s: State, k: Call, now: Time)
    requires Fresh(s, k, now)
    ensures RegisterAllowed(s, DecisionOf(s, k, now), None) ==
            RegisterAction(s, DecisionOf(s, k, now), ActionAt(s, k, now, ConfirmationRequired, 2))
  {
    var d := DecisionOf(s, k, now);
    var planned := Advance(FreshAction(d, None), Planned, Some(d.decidedAt), None);
    assert planned.Ok?;
    assert Advance(planned.value, ConfirmationRequired, Some(d.decidedAt), None)
        == Ok(ActionAt(s, k, now, ConfirmationRequired, 2));
  }

  lemma AllowedRegisters(s: State, k: Call, d: Decision, a: Action)
    requires k.request.target in s.plans && IndexOk(s.actions, s.index)
    requires Permits(s.switches, k.request.environment) && FindByKey(s, k.request.IndexKey()).None?
    requires Judge(k.(seen := Some(Plan(s, k)))) == Allowed(d) && RegisterAllowed(s, d, None) == RegisterAction(s, d, a)
    requires RegisterAction(s, d, a).result.Ok?
    ensures Authorize(s, k.(seen := Some(Plan(s, k))), None).state == RegisterAction(s, d, a).state
  {
  }

  lemma Registers(s: State, k: Call, now: Time)
    requires Fresh(s, k, now) && Plan(s, k).target == k.request.target && Plan(s, k).environment == Staging
    requires Plan(s, k).revision >= 1 && IndexOk(s.actions, s.index)
    ensures Authorize(s, k.(seen := Some(Plan(s, k))), None).state == Registered(s, k, now)
  {
    Judged(s, k, now);
    var d := DecisionOf(s, k, now);
    WaitsAt(s, k, now);
    AllowedRegisters(s, k, d, ActionAt(s, k, now, ConfirmationRequired, 2));
  }

  lemma Asks(s: State, k: Call, now: Time, pending: ConfirmationId)
    requires Fresh(s, k, now) && forall c :: c in s.bindings ==> s.bindings[c].actionId != k.actionId
    ensures RequestConfirmation(Registered(s, k, now), k.actionId, pending, now).state == Asked(s, k, now)
  {
  }

  /** The straight path of an action, one advance at a time. */
  lemma AdvancesAt(s: State, k: Call, now: Time, st: LifecycleState, version: nat, next: LifecycleState)
    requires Fresh(s, k, now)
    requires (st == ConfirmationRequired && version == 2 && next == Confirmed)
          || (st == Confirmed && version == 3 && next == SnapshotCaptured)
          || (st == SnapshotCaptured && version == 4 && next == Leased)
    ensures Advance(ActionAt(s, k, now, st, version), next, Some(now), Some(k.who.subject))
            == Ok(ActionAt(s, k, now, next, version + 1))
  {
  }

  function Confirmation(s: State, k: Call, now: Time): Binding
    requires k.request.target in s.plans
  {
    BindingAt(s, k, now).(confirmedBy := Some(k.who.subject), state := BindingConfirmed)
  }

  lemma Builds(s: State, k: Call, now: Time)
    requires Fresh(s, k, now)
    ensures BuildConfirmation(BindingAt(s, k, now), k.who.subject, now) == Ok(Confirmation(s, k, now))
  {
  }

  lemma AdvanceTo(s: State, id: ActionId, version: nat, next: LifecycleState, actor: Subject, now: Time, b: Action)
    requires id in s.actions && s.actions[id].version == version
    requires Advance(s.actions[id], next, Some(now), Some(actor)) == Ok(b)
    ensures AdvanceAction(s, id, version, next, actor, now) == Reply(s.(actions := s.actions[id := b]), Ok(b))
  {
  }

  lemma ApprovedFromAsked(s: State, k: Call, now: Time)
    requires k.request.target in s.plans
    ensures var t := PutBinding(Asked(s, k, now), Confirmation(s, k, now));
            && k.actionId in t.actions && t.actions[k.actionId] == ActionAt(s, k, now, ConfirmationRequired, 2)
            && Approved(s, k, now) == t.(actions := t.actions[k.actionId := ActionAt(s, k, now, Confirmed, 3)])
  {
    var t, z := PutBinding(Asked(s, k, now), Confirmation(s, k, now)), Approved(s, k, now);
    assert z.actions == t.actions[k.actionId := ActionAt(s, k, now, Confirmed, 3)];
    assert z.bindings == t.bindings;
  }

  lemma ApproveSteps(s: State, k: Call, now: Time)
    requires Fresh(s, k, now)
    ensures AdvanceAction(PutBinding(Asked(s, k, now), Confirmation(s, k, now)), k.actionId, 2, Confirmed,
                          k.who.subject, now).state
            == Approved(s, k, now)
  {
    ApprovedFromAsked(s, k, now);
    AdvancesAt(s, k, now, ConfirmationRequired, 2, Confirmed);
    AdvanceTo(PutBinding(Asked(s, k, now), Confirmation(s, k, now)), k.actionId, 2, Confirmed, k.who.subject, now,
              ActionAt(s, k, now, Confirmed, 3));
  }

  lemma Approves(s: State, k: Call, now: Time)
    requires Fresh(s, k, now)
    ensures Service.Confirm(Asked(s, k, now), Cid(k, now), 2, k.who.subject, now).state == Approved(s, k, now)
  {
    Builds(s, k, now);
    ApproveSteps(s, k, now);
  }

  lemma CapturedFromApproved(s: State, k: Call, now: Time, sid: SnapshotId)
    requires k.request.target in s.plans
    ensures var t := Approved(s, k, now);
            && k.actionId in t.actions && t.actions[k.actionId] == ActionAt(s, k, now, Confirmed, 3)
            && t.switches == s.switches && t.snapshots == s.snapshots
            && Captured(s, k, now, sid) ==
               t.(actions := t.actions[k.actionId := ActionAt(s, k, now, SnapshotCaptured, 4)],
                  snapshots := s.snapshots + [SnapOf(s, k, sid)])
  {
    var t, z := Approved(s, k, now), Captured(s, k, now, sid);
    assert z.actions == t.actions[k.actionId := ActionAt(s, k, now, SnapshotCaptured, 4)];
  }

  /** Capturing the authorized revision of a confirmed action. */
  lemma CaptureTo(s: State, id: ActionId, version: nat, p: ProjectPlan, sid: SnapshotId, now: Time, b: Action)
    requires id in s.actions && s.actions[id].state == Confirmed && s.actions[id].version == version
    requires p.target == s.actions[id].target && p.revision == s.actions[id].planRevision
    requires s.actions[id].environment == Staging && SwitchFor(s.switches, Staging).state == Disengaged
    requires Advance(s.actions[id], SnapshotCaptured, Some(now), Some(s.actions[id].requester)) == Ok(b)
    ensures Capture(s, id, version, p, sid, now).state ==
            s.(actions := s.actions[id := b],
               snapshots := s.snapshots + [Snapshot(sid, id, p.target, p.environment, p.revision, p)])
  {
  }

  lemma Captures(s: State, k: Call, now: Time, sid: SnapshotId)
    requires Fresh(s, k, now) && Plan(s, k).target == k.request.target
    ensures Capture(Approved(s, k, now), k.actionId, 3, Plan(s, k), sid, now).state == Captured(s, k, now, sid)
  {
    CapturedFromApproved(s, k, now, sid);
    AdvancesAt(s, k, now, Confirmed, 3, SnapshotCaptured);
    CaptureTo(Approved(s, k, now), k.actionId, 3, Plan(s, k), sid, now, ActionAt(s, k, now, SnapshotCaptured, 4));
  }

  lemma LeasedFromCaptured(s: State, k: Call, now: Time, sid: SnapshotId, lid: LeaseId)
    requires k.request.target in s.plans
    ensures var t := Captured(s, k, now, sid);
            && k.actionId in t.actions && t.actions[k.actionId] == ActionAt(s, k, now, SnapshotCaptured, 4)
            && t.leases == s.leases
            && LeasedAt(s, k, now, sid, lid) ==
               t.(actions := t.actions[k.actionId := ActionAt(s, k, now, Leased, 5)],
                  leases := s.leases[k.actionId := Lease(lid, k.actionId, 1, true, now, now + LEASE_TTL, 5)])
  {
    var t, z := Captured(s, k, now, sid), LeasedAt(s, k, now, sid, lid);
    assert z.actions == t.actions[k.actionId := ActionAt(s, k, now, Leased, 5)];
  }

  /** Leasing a captured action that has no lease yet. */
  lemma LeaseTo(s: State, id: ActionId, version: nat, lid: LeaseId, now: Time, b: Action)
    requires id in s.actions && s.actions[id].state == SnapshotCaptured && s.actions[id].version == version
             && id !in s.leases
    requires now < s.actions[id].expiresAt
    requires Advance(s.actions[id], Leased, Some(now), Some(s.actions[id].requester)) == Ok(b)
    ensures AcquireLease(s, id, version, lid, now).state ==
            s.(actions := s.actions[id := b],
               leases := s.leases[id := Lease(lid, id, 1, true, now, now + LEASE_TTL, b.version)])
  {
  }

  lemma Leases(s: State, k: Call, now: Time, sid: SnapshotId, lid: LeaseId)
    requires Fresh(s, k, now)
    ensures AcquireLease(Captured(s, k, now, sid), k.actionId, 4, lid, now).state == LeasedAt(s, k, now, sid, lid)
  {
    LeasedFromCaptured(s, k, now, sid, lid);
    AdvancesAt(s, k, now, SnapshotCaptured, 4, Leased);
    LeaseTo(Captured(s, k, now, sid), k.actionId, 4, lid, now, ActionAt(s, k, now, Leased, 5));
  }

  // ----- the contract -------------------------------------------------------------------

  function ContractAt(s: State, k: Call, now: Time, sid: SnapshotId, lid: LeaseId): Contract
    requires k.request.target in s.plans
  {
    var p := Plan(s, k);
    Contract(k.actionId, 5, k.request.target, Staging, k.planId, p.revision, p, MutationFields(k.request.metadata),
             sid, Cid(k, now), k.policy.version, SwitchFor(s.switches, Staging).epoch, lid, 1,
             DecisionOf(s, k, now).expiresAt, CAPABILITY_VERSION)
  }

  lemma {:induction false} LastSnapshotIsFirst(snaps: seq<Snapshot>, snap: Snapshot)
    requires forall i :: 0 <= i < |snaps| ==> snaps[i].actionId != snap.actionId
    ensures FirstSnapshot(snaps + [snap], snap.actionId) == Some(snap)
  {
    if snaps != [] {
      assert (snaps + [snap])[1..] == snaps[1..] + [snap];
      LastSnapshotIsFirst(snaps[1..], snap);
    }
  }

  lemma BuildsContract(s: State, k: Call, now: Time, sid: SnapshotId, lid: LeaseId)
    requires Fresh(s, k, now) && Plan(s, k).revision >= 1 && KillSwitch.WellFormed(s.switches)
    requires SnapshotFor(LeasedAt(s, k, now, sid, lid), k.actionId) == Some(SnapOf(s, k, sid))
    ensures ContractForAction(LeasedAt(s, k, now, sid, lid), k.actionId, Cid(k, now), now) ==
            Ok(ContractAt(s, k, now, sid, lid))
  {
  }

  lemma IsAdmissible(s: State, k: Call, now: Time, sid: SnapshotId, lid: LeaseId)
    requires Fresh(s, k, now) && Plan(s, k).target == k.request.target && Plan(s, k).environment == Staging
    requires SnapshotFor(LeasedAt(s, k, now, sid, lid), k.actionId) == Some(SnapOf(s, k, sid))
    ensures A.Admissible(LeasedAt(s, k, now, sid, lid), ContractAt(s, k, now, sid, lid), now)
  {
  }

  // ----- from a reachable state to a leased action -----------------------------------------

  /** What the invariant adds to freshness. */
  predicate Sound(s: State, k: Call)
    requires k.request.target in s.plans
  {
    var p := Plan(s, k);
    && p.target == k.request.target && p.environment == Staging && p.revision >= 1
    && KillSwitch.WellFormed(s.switches)
    && (forall c :: c in s.bindings ==> s.bindings[c].actionId != k.actionId)
    && (forall i :: 0 <= i < |s.snapshots| ==> s.snapshots[i].actionId != k.actionId)
  }

  lemma FreshIsSound(s: State, k: Call, now: Time)
    requires Inv(s) && Fresh(s, k, now)
    ensures Sound(s, k)
  {
    P.StoredIsStaging(s, k.request.target);
    forall c | c in s.bindings ensures s.bindings[c].actionId != k.actionId {
      assert BindingOk(s.decisions, s.bindings[c]);
    }
    forall i | 0 <= i < |s.snapshots| ensures s.snapshots[i].actionId != k.actionId {
      assert SnapshotOk(s, s.snapshots[i]);
    }
  }

  /** Where in the log the current plan was written. */
  lemma CurrentIsLogged(s: State, t: Target) returns (n: nat)
    requires Inv(s) && t in s.plans
    ensures n < |s.log| && s.log[n].after == s.plans[t] && Observed(s, t, n) == Some(s.plans[t])
  {
    P.StoredIsStaging(s, t);
    assert StoredOk(s.plans, s.log, t);
    n :| 0 <= n < |s.log| && s.log[n].target == t && s.log[n].after == s.plans[t];
  }

  lemma GoRegister(x: Sys, s: State, k: Call, n: nat, t: State)
    requires CanReach(x, x.(st := s)) && k.request.operation == UpdateProjectPlan
    requires t == Authorize(s, k.(seen := Observed(s, k.request.target, n)), None).state
    ensures CanReach(x, x.(st := t))
  {
    CanGoOn(x, x.(st := s), AuthorizeRequest(k, n));
  }

  lemma GoAsk(x: Sys, s: State, id: ActionId, pending: ConfirmationId, now: Time, t: State)
    requires CanReach(x, x.(st := s)) && t == RequestConfirmation(s, id, pending, now).state
    ensures CanReach(x, x.(st := t))
  {
    CanGoOn(x, x.(st := s), AskConfirmation(id, pending, now));
  }

  lemma GoConfirm(x: Sys, s: State, cid: ConfirmationId, version: nat, actor: Subject, now: Time, t: State)
    requires CanReach(x, x.(st := s)) && t == Service.Confirm(s, cid, version, actor, now).state
    ensures CanReach(x, x.(st := t))
  {
    CanGoOn(x, x.(st := s), ConfirmAction(cid, version, actor, now));
  }

  lemma GoCapture(x: Sys, s: State, id: ActionId, version: nat, n: nat, sid: SnapshotId, now: Time, t: State)
    requires CanReach(x, x.(st := s)) && n < |s.log| && t == Capture(s, id, version, s.log[n].after, sid, now).state
    ensures CanReach(x, x.(st := t))
  {
    CanGoOn(x, x.(st := s), CapturePlan(id, version, n, sid, now));
  }

  lemma GoLease(x: Sys, s: State, id: ActionId, version: nat, lid: LeaseId, now: Time, t: State)
    requires CanReach(x, x.(st := s)) && t == AcquireLease(s, id, version, lid, now).state
    ensures CanReach(x, x.(st := t))
  {
    CanGoOn(x, x.(st := s), GrantLease(id, version, lid, now));
  }

  lemma ReachesRegistered(x: Sys, k: Call, now: Time, n: nat)
    requires Inv(x.st) && Fresh(x.st, k, now) && Sound(x.st, k)
    requires Observed(x.st, k.request.target, n) == Some(Plan(x.st, k))
    ensures CanReach(x, x.(st := Registered(x.st, k, now)))
  {
    CanStay(x);
    Registers(x.st, k, now);
    GoRegister(x, x.st, k, n, Registered(x.st, k, now));
  }

  lemma ReachesApproved(x: Sys, k: Call, now: Time)
    requires Fresh(x.st, k, now) && Sound(x.st, k) && CanReach(x, x.(st := Registered(x.st, k, now)))
    ensures CanReach(x, x.(st := Approved(x.st, k, now)))
  {
    Asks(x.st, k, now, Cid(k, now));
    GoAsk(x, Registered(x.st, k, now), k.actionId, Cid(k, now), now, Asked(x.st, k, now));
    Approves(x.st, k, now);
    GoConfirm(x, Asked(x.st, k, now), Cid(k, now), 2, k.who.subject, now, Approved(x.st, k, now));
  }

  lemma ReachesCaptured(x: Sys, k: Call, now: Time, n: nat, sid: SnapshotId)
    requires Fresh(x.st, k, now) && Sound(x.st, k) && CanReach(x, x.(st := Approved(x.st, k, now)))
    requires n < |x.st.log| && x.st.log[n].after == Plan(x.st, k)
    ensures CanReach(x, x.(st := Captured(x.st, k, now, sid)))
  {
    Captures(x.st, k, now, sid);
    GoCapture(x, Approved(x.st, k, now), k.actionId, 3, n, sid, now, Captured(x.st, k, now, sid));
  }

  lemma ReachesLeased(x: Sys, k: Call, now: Time, sid: SnapshotId, lid: LeaseId)
    requires Inv(x.st) && Fresh(x.st, k, now)
    ensures Sound(x.st, k) && CanReach(x, x.(st := LeasedAt(x.st, k, now, sid, lid)))
  {
    FreshIsSound(x.st, k, now);
    var n := CurrentIsLogged(x.st, k.request.target);
    ReachesRegistered(x, k, now, n);
    ReachesApproved(x, k, now);
    ReachesCaptured(x, k, now, n, sid);
    Leases(x.st, k, now, sid, lid);
    GoLease(x, Captured(x.st, k, now, sid), k.actionId, 4, lid, now, LeasedAt(x.st, k, now, sid, lid));
  }

  /** The leased action, with a caller that holds its contract. */
  function Under(x: Sys, k: Call, now: Time, sid: SnapshotId, lid: LeaseId, u: nat): Sys
    requires k.request.target in x.st.plans
  {
    Sys(LeasedAt(x.st, k, now, sid, lid), x.threads[u := ExBuilt(ContractAt(x.st, k, now, sid, lid), now)])
  }

  lemma ReachesContract(x: Sys, k: Call, now: Time, sid: SnapshotId, lid: LeaseId, u: nat)
    requires SysInv(x) && Fresh(x.st, k, now) && Pc0(x, u) == Idle
    ensures CanReach(x, Under(x, k, now, sid, lid, u))
    ensures A.Admissible(LeasedAt(x.st, k, now, sid, lid), ContractAt(x.st, k, now, sid, lid), now)
  {
    ReachesLeased(x, k, now, sid, lid);
    LastSnapshotIsFirst(x.st.snapshots, SnapOf(x.st, k, sid));
    BuildsContract(x.st, k, now, sid, lid);
    IsAdmissible(x.st, k, now, sid, lid);
    GoStart(x, LeasedAt(x.st, k, now, sid, lid), u, k.actionId, Cid(k, now), now, ContractAt(x.st, k, now, sid, lid));
  }

  lemma GoStart(x: Sys, s: State, u: nat, id: ActionId, cid: ConfirmationId, now: Time, c: Contract)
    requires CanReach(x, x.(st := s)) && Pc0(x, u) == Idle && ContractForAction(s, id, cid, now) == Ok(c)
    ensures CanReach(x, Sys(s, x.threads[u := ExBuilt(c, now)]))
  {
    CanGoOn(x, x.(st := s), StartExecute(u, id, cid, now));
  }

  // ----- to the end -----------------------------------------------------------------------------

  /** The request has been carried out: its action is verified and the target is
      one revision on with the requested content; no other action, plan or
      caller has changed. */
  predicate CarriedOut(x: Sys, y: Sys, k: Call, now: Time, u: nat)
    requires k.request.target in x.st.plans
  {
    var t := k.request.target;
    && k.actionId in y.st.actions && y.st.actions == x.st.actions[k.actionId := y.st.actions[k.actionId]]
    && y.st.actions[k.actionId].state == VerifiedSuccess
    && t in y.st.plans && y.st.plans == x.st.plans[t := y.st.plans[t]]
    && Update(x.st.plans[t], x.st.plans[t].revision, MutationFields(k.request.metadata), now) == Ok(y.st.plans[t])
    && y.threads == x.threads[u := Idle]
  }

  /** What the leased state keeps of the one the request was made in. */
  predicate Prepared(x: Sys, z: Sys, c: Contract, k: Call, now: Time, u: nat)
    requires k.request.target in x.st.plans
  {
    && z.threads == x.threads[u := ExBuilt(c, now)]
    && c.target == k.request.target && c.actionId == k.actionId
    && c.actionId in z.st.actions && c.confirmationId in z.st.bindings && c.actionId in z.st.leases
    && z.st.actions == x.st.actions[k.actionId := z.st.actions[k.actionId]] && z.st.plans == x.st.plans
    && c.expectedRevision == Plan(x.st, k).revision && c.fields == MutationFields(k.request.metadata)
  }

  /** A caller with an admissible contract can run to the end. */
  lemma ExecutesTo(z: Sys, c: Contract, now: Time, g: W.Given, u: nat)
    requires SysInv(z) && u in z.threads && z.threads[u] == ExBuilt(c, now)
    requires A.Admissible(z.st, c, now) && Acceptable(z.st.plans[c.target], c.fields)
    ensures A.NextPlan(z.st, c, now).Ok?
    ensures CanReach(z, Sys(A.Finished(z.st, c, A.NextPlan(z.st, c, now).value), z.threads[u := Idle]))
  {
    A.ExecuteAlone(z.st, c, now);
    W.ExecuteIsItsSteps(g, z.st, c, now);
    LeadsReaches(z, u, g, Move(Execute(z.st, c, now).state, Idle));
  }

  lemma PreparedCompletes(x: Sys, z: Sys, c: Contract, k: Call, now: Time, lid: LeaseId, u: nat)
    requires k.request.target in x.st.plans && CanReach(x, z) && SysInv(z) && Prepared(x, z, c, k, now, u)
    requires A.Admissible(z.st, c, now) && Acceptable(Plan(x.st, k), c.fields)
    ensures exists y :: CanReach(x, y) && CarriedOut(x, y, k, now, u)
  {
    ExecutesTo(z, c, now, W.Given(c.confirmationId, lid), u);
    var y := Sys(A.Finished(z.st, c, A.NextPlan(z.st, c, now).value), z.threads[u := Idle]);
    CanJoin(x, z, y);
    PreparedEnds(x, z, c, k, now, u, y);
  }

  lemma PreparedEnds(x: Sys, z: Sys, c: Contract, k: Call, now: Time, u: nat, y: Sys)
    requires k.request.target in x.st.plans && Prepared(x, z, c, k, now, u)
    requires A.NextPlan(z.st, c, now).Ok?
    requires y == Sys(A.Finished(z.st, c, A.NextPlan(z.st, c, now).value), z.threads[u := Idle])
    ensures CarriedOut(x, y, k, now, u)
  {
    assert y.threads == x.threads[u := Idle];
    FinishedCarries(x, z.st, c, k, now, u, y);
  }

  /** From every reachable state, every fresh request can be carried out. */
  lemma FreshRequestCompletes(x: Sys, k: Call, now: Time, sid: SnapshotId, lid: LeaseId, u: nat)
    requires SysInv(x) && Fresh(x.st, k, now) && Pc0(x, u) == Idle
    ensures exists y :: CanReach(x, y) && CarriedOut(x, y, k, now, u)
  {
    var z := Under(x, k, now, sid, lid, u);
    ReachesContract(x, k, now, sid, lid, u);
    ReachedIsOk(x, z);
    LeasedParts(x.st, k, now, sid, lid);
    PreparedCompletes(x, z, ContractAt(x.st, k, now, sid, lid), k, now, lid, u);
  }

  lemma FinishedCarries(x: Sys, l: State, c: Contract, k: Call, now: Time, u: nat, y: Sys)
    requires k.request.target in x.st.plans && c.target == k.request.target && c.actionId == k.actionId
    requires c.actionId in l.actions && c.confirmationId in l.bindings && c.target in l.plans && c.actionId in l.leases
    requires l.actions == x.st.actions[k.actionId := l.actions[k.actionId]] && l.plans == x.st.plans
    requires c.expectedRevision == Plan(x.st, k).revision && c.fields == MutationFields(k.request.metadata)
    requires A.NextPlan(l, c, now).Ok? && y.st == A.Finished(l, c, A.NextPlan(l, c, now).value)
             && y.threads == x.threads[u := Idle]
    ensures CarriedOut(x, y, k, now, u)
  {
    FinishedActions(l, c, A.NextPlan(l, c, now).value);
  }

  lemma LeasedParts(s: State, k: Call, now: Time, sid: SnapshotId, lid: LeaseId)
    requires k.request.target in s.plans
    ensures var l, c := LeasedAt(s, k, now, sid, lid), ContractAt(s, k, now, sid, lid);
            && k.actionId in l.actions && l.actions == s.actions[k.actionId := l.actions[k.actionId]]
            && l.plans == s.plans
            && c.actionId == k.actionId && c.target == k.request.target && c.confirmationId in l.bindings
            && c.actionId in l.leases
            && c.expectedRevision == Plan(s, k).revision && c.fields == MutationFields(k.request.metadata)
  {
  }

  lemma FinishedActions(l: State, c: Contract, p: ProjectPlan)
    requires c.actionId in l.actions && c.confirmationId in l.bindings && c.target in l.plans && c.actionId in l.leases
    ensures var t := A.Finished(l, c, p);
            && c.actionId in t.actions && t.actions == l.actions[c.actionId := t.actions[c.actionId]]
            && t.actions[c.actionId].state == VerifiedSuccess && t.plans == l.plans[c.target := p]
  {
  }

  // ----- verification can fail ---------------------------------------------------------------------

  /** A caller with an admissible contract can get as far as its write. */
  lemma WritesTo(z: Sys, c: Contract, now: Time, g: W.Given, u: nat)
    requires SysInv(z) && u in z.threads && z.threads[u] == ExBuilt(c, now)
    requires A.Admissible(z.st, c, now) && Acceptable(z.st.plans[c.target], c.fields)
    ensures A.NextPlan(z.st, c, now).Ok?
    ensures CanReach(z, Sys(A.Applied(z.st, c, A.NextPlan(z.st, c, now).value),
                            z.threads[u := ExMutated(c, now, z.st.actions[c.actionId].version + 2)]))
  {
    A.AdmissibleIsRunnable(z.st, c, now);
    CanWrite(z, c, now, g, u);
  }

  lemma CanWrite(z: Sys, c: Contract, now: Time, g: W.Given, u: nat)
    requires u in z.threads && z.threads[u] == ExBuilt(c, now) && A.Admissible(z.st, c, now) && A.Runnable(z.st, c, now)
    requires A.NextPlan(z.st, c, now).Ok?
    ensures CanReach(z, Sys(A.Applied(z.st, c, A.NextPlan(z.st, c, now).value),
                            z.threads[u := ExMutated(c, now, z.st.actions[c.actionId].version + 2)]))
  {
    WritePath(g, z.st, c, now);
    LeadsReaches(z, u, g, Move(A.Applied(z.st, c, A.NextPlan(z.st, c, now).value),
                               ExMutated(c, now, z.st.actions[c.actionId].version + 2)));
  }

  lemma PreparePath(g: W.Given, s: State, c: Contract, now: Time)
    requires A.Admissible(s, c, now) && s.actions[c.actionId].approver.Some?
    ensures W.Leads(g, Move(s, ExBuilt(c, now)),
                    Move(A.Begun(s, c), ExBegun(c, now, s.actions[c.actionId].version + 1)))
  {
    W.PrepareSteps(g, s, c, now);
    A.PrepareBegins(s, c, now);
  }

  lemma WritePath(g: W.Given, s: State, c: Contract, now: Time)
    requires A.Admissible(s, c, now) && A.Runnable(s, c, now) && A.NextPlan(s, c, now).Ok?
    ensures W.Leads(g, Move(s, ExBuilt(c, now)),
                    Move(A.Applied(s, c, A.NextPlan(s, c, now).value),
                         ExMutated(c, now, s.actions[c.actionId].version + 2)))
  {
    var v := s.actions[c.actionId].version;
    PreparePath(g, s, c, now);
    BegunPath(g, s, c, now);
    W.Then(g, Move(s, ExBuilt(c, now)), Move(A.Begun(s, c), ExBegun(c, now, v + 1)),
           Move(A.Applied(s, c, A.NextPlan(s, c, now).value), ExMutated(c, now, v + 2)));
  }

  lemma RunningWrites(g: W.Given, t: State, c: Contract, now: Time, version: nat, m: State, v: nat)
    requires c.actionId in t.actions && t.actions[c.actionId].state == Running
    requires var r := MutatePlan(t, c.actionId, version, c.expectedRevision, c.fields, now);
             r.result.Ok? && r.state == m && r.result.value.version == v
    ensures W.Leads(g, Move(t, ExBegun(c, now, version)), Move(m, ExMutated(c, now, v)))
  {
    W.WriteStep(g, t, c, now, version);
    RunningStep(g, t, c, now, version);
    W.Then(g, Move(t, ExBegun(c, now, version)), Move(t, ExRunning(c, now, version)), Move(m, ExMutated(c, now, v)));
  }

  lemma BegunPath(g: W.Given, s: State, c: Contract, now: Time)
    requires A.Runnable(s, c, now) && A.NextPlan(s, c, now).Ok?
    ensures var v := s.actions[c.actionId].version;
            W.Leads(g, Move(A.Begun(s, c), ExBegun(c, now, v + 1)),
                    Move(A.Applied(s, c, A.NextPlan(s, c, now).value), ExMutated(c, now, v + 2)))
  {
    var v := s.actions[c.actionId].version;
    A.BegunMutates(s, c, now);
    RunningWrites(g, A.Begun(s, c), c, now, v + 1, A.Applied(s, c, A.NextPlan(s, c, now).value), v + 2);
  }

  lemma RunningStep(g: W.Given, s: State, c: Contract, now: Time, version: nat)
    requires c.actionId in s.actions && s.actions[c.actionId].state == Running
    ensures W.Leads(g, Move(s, ExBegun(c, now, version)), Move(s, ExRunning(c, now, version)))
  {
    W.Last(g, Move(s, ExBegun(c, now, version)), Move(s, ExRunning(c, now, version)));
  }

  /** A caller that reads back a plan that has moved on records a failure. */
  lemma FailsFrom(y: Sys, u: nat, c: Contract, now: Time, version: nat, g: W.Given)
    requires u in y.threads && y.threads[u] == ExMutated(c, now, version) && c.actionId in y.st.actions
    requires var a := y.st.actions[c.actionId];
             a.state == ExecutedPendingVerification && a.version == version && a.approver.Some? && now < a.expiresAt
    requires c.target in y.st.plans && y.st.plans[c.target].revision != c.expectedRevision + 1
    ensures exists w :: CanReach(y, w) && c.actionId in w.st.actions
                        && w.st.actions[c.actionId].state == VerificationFailed
  {
    W.ObserveStep(g, y.st, c, now, version);
    assert !ReadBack(c, y.st.plans[c.target]);
    W.RecordStep(g, y.st, c, now, version, false);
    var r := RecordVerification(y.st, c.actionId, version, false, now);
    RecordsFailure(y.st, c.actionId, version, now);
    var b := Move(r.state, ExRecorded(c));
    W.Then(g, Move(y.st, y.threads[u]), Move(y.st, ExObserved(c, now, version, false)), b);
    LeadsReaches(y, u, g, b);
  }

  lemma RecordsFailure(s: State, id: ActionId, version: nat, now: Time)
    requires id in s.actions && s.actions[id].state == ExecutedPendingVerification && s.actions[id].version == version
    requires s.actions[id].approver.Some? && now < s.actions[id].expiresAt
    ensures var r := RecordVerification(s, id, version, false, now);
            r.result.Ok? && id in r.state.actions && r.state.actions[id].state == VerificationFailed
  {
  }

  /** What registering, approving, capturing and leasing one request changed. */
  predicate Grown(s: State, l: State, k: Call, now: Time) {
    var id := k.actionId;
    && l.maxRecords == s.maxRecords && l.switches == s.switches
    && id in l.actions && l.actions == s.actions[id := l.actions[id]]
    && l.index == s.index[k.request.IndexKey() := id]
    && Cid(k, now) in l.bindings && l.bindings == s.bindings[Cid(k, now) := l.bindings[Cid(k, now)]]
    && l.evidence.Keys <= s.evidence.Keys + {id} && l.leases.Keys <= s.leases.Keys + {id}
    && l.actions[id].approver.Some? && now < l.actions[id].expiresAt
  }

  lemma LeasedGrown(s: State, k: Call, now: Time, sid: SnapshotId, lid: LeaseId)
    requires Fresh(s, k, now)
    ensures Grown(s, LeasedAt(s, k, now, sid, lid), k, now)
  {
  }

  lemma AppliedGrown(s: State, l: State, c: Contract, p: ProjectPlan, k: Call, now: Time)
    requires Grown(s, l, k, now) && c.actionId == k.actionId && c.confirmationId == Cid(k, now) && c.target in l.plans
    ensures var t := A.Applied(l, c, p);
            && Grown(s, t, k, now) && t.plans == l.plans[c.target := p]
            && t.actions[k.actionId].state == ExecutedPendingVerification
            && t.actions[k.actionId].version == l.actions[k.actionId].version + 2
  {
    var t := A.Applied(l, c, p);
    assert t.actions == s.actions[k.actionId := t.actions[k.actionId]];
    assert t.bindings == s.bindings[Cid(k, now) := t.bindings[Cid(k, now)]];
  }

  /** A fresh request has been written, and its caller is about to read back. */
  predicate HasWritten(x: Sys, y: Sys, c: Contract, k: Call, now: Time, u: nat)
    requires k.request.target in x.st.plans
  {
    var id, t := k.actionId, k.request.target;
    && Grown(x.st, y.st, k, now) && c.actionId == id && c.target == t && c.expectedRevision == x.st.plans[t].revision
    && y.st.actions[id].state == ExecutedPendingVerification
    && y.threads == x.threads[u := ExMutated(c, now, y.st.actions[id].version)]
    && t in y.st.plans && y.st.plans == x.st.plans[t := y.st.plans[t]]
    && Update(x.st.plans[t], x.st.plans[t].revision, MutationFields(k.request.metadata), now) == Ok(y.st.plans[t])
  }

  lemma PreparedWrites(x: Sys, z: Sys, c: Contract, k: Call, now: Time, lid: LeaseId, u: nat)
    requires k.request.target in x.st.plans && CanReach(x, z) && SysInv(z) && Prepared(x, z, c, k, now, u)
    requires Grown(x.st, z.st, k, now) && c.confirmationId == Cid(k, now)
    requires A.Admissible(z.st, c, now) && Acceptable(Plan(x.st, k), c.fields)
    ensures exists y :: CanReach(x, y) && HasWritten(x, y, c, k, now, u)
  {
    WritesTo(z, c, now, W.Given(c.confirmationId, lid), u);
    var p, v := A.NextPlan(z.st, c, now).value, z.st.actions[c.actionId].version + 2;
    var y := Sys(A.Applied(z.st, c, p), z.threads[u := ExMutated(c, now, v)]);
    CanJoin(x, z, y);
    WrittenEnds(x, z, c, p, k, now, u, y);
  }

  lemma WrittenEnds(x: Sys, z: Sys, c: Contract, p: ProjectPlan, k: Call, now: Time, u: nat, y: Sys)
    requires k.request.target in x.st.plans && Prepared(x, z, c, k, now, u)
    requires Grown(x.st, z.st, k, now) && c.confirmationId == Cid(k, now) && A.NextPlan(z.st, c, now) == Ok(p)
    requires y == Sys(A.Applied(z.st, c, p), z.threads[u := ExMutated(c, now, z.st.actions[c.actionId].version + 2)])
    ensures HasWritten(x, y, c, k, now, u)
  {
    AppliedGrown(x.st, z.st, c, p, k, now);
    WrittenFrom(x, z, y, c, p, k, now, u);
  }

  lemma WrittenFrom(x: Sys, z: Sys, y: Sys, c: Contract, p: ProjectPlan, k: Call, now: Time, u: nat)
    requires k.request.target in x.st.plans && Prepared(x, z, c, k, now, u) && Grown(x.st, y.st, k, now)
    requires Update(Plan(x.st, k), c.expectedRevision, c.fields, now) == Ok(p)
             && y.st.plans == z.st.plans[c.target := p]
    requires y.st.actions[k.actionId].state == ExecutedPendingVerification
    requires y.threads == z.threads[u := ExMutated(c, now, y.st.actions[k.actionId].version)]
    ensures HasWritten(x, y, c, k, now, u)
  {
    assert y.threads == x.threads[u := ExMutated(c, now, y.st.actions[k.actionId].version)];
  }

  lemma FreshRequestWrites(x: Sys, k: Call, now: Time, sid: SnapshotId, lid: LeaseId, u: nat)
    requires SysInv(x) && Fresh(x.st, k, now) && Pc0(x, u) == Idle
    ensures exists y, c :: CanReach(x, y) && HasWritten(x, y, c, k, now, u)
  {
    var z, c := Under(x, k, now, sid, lid, u), ContractAt(x.st, k, now, sid, lid);
    ReachesContract(x, k, now, sid, lid, u);
    ReachedIsOk(x, z);
    LeasedParts(x.st, k, now, sid, lid);
    LeasedGrown(x.st, k, now, sid, lid);
    PreparedWrites(x, z, c, k, now, lid, u);
  }

  /** Two requests that do not get in each other's way. */
  predicate Apart(s: State, k: Call, l: Call) {
    && k.actionId != l.actionId && k.request.IndexKey() != l.request.IndexKey() && k.request.target == l.request.target
    && |s.actions| + 1 < s.maxRecords && |s.bindings| + 1 < MAX_BINDINGS
  }

  lemma AcceptableAfter(p: ProjectPlan, f: Fields, g: Fields, now: Time)
    requires Acceptable(p, f) && Acceptable(p, g)
    ensures Update(p, p.revision, f, now).Ok? && Acceptable(Update(p, p.revision, f, now).value, g)
  {
  }

  lemma StillFresh(x: Sys, y: Sys, c: Contract, k: Call, l: Call, now: Time, u: nat)
    requires Fresh(x.st, k, now) && Fresh(x.st, l, now) && Apart(x.st, k, l) && HasWritten(x, y, c, k, now, u)
    ensures Fresh(y.st, l, now)
  {
    AcceptableAfter(Plan(x.st, k), MutationFields(k.request.metadata), MutationFields(l.request.metadata), now);
    assert |y.st.actions| <= |x.st.actions| + 1;
    assert |y.st.bindings| <= |x.st.bindings| + 1;
  }

  /** Verification really can fail: from every reachable state, for any two fresh
      requests for one target, there is a run in which the second is carried out
      between the first one's write and its read-back. */
  lemma VerificationCanFail(x: Sys, k: Call, l: Call, now: Time, u: nat, v: nat)
    requires SysInv(x) && Fresh(x.st, k, now) && Fresh(x.st, l, now) && Apart(x.st, k, l)
    requires u != v && Pc0(x, u) == Idle && Pc0(x, v) == Idle
    ensures exists w :: CanReach(x, w) && k.actionId in w.st.actions
                        && w.st.actions[k.actionId].state == VerificationFailed
  {
    FreshRequestWrites(x, k, now, 0, 0, u);
    var y, c :| CanReach(x, y) && HasWritten(x, y, c, k, now, u);
    ReachedIsOk(x, y);
    StillFresh(x, y, c, k, l, now, u);
    FreshRequestCompletes(y, l, now, 1, 1, v);
    var z :| CanReach(y, z) && CarriedOut(y, z, l, now, v);
    OvertakenReads(x, y, z, c, k, l, now, u, v);
    FailsFrom(z, u, c, now, z.st.actions[k.actionId].version, W.Given(c.confirmationId, 0));
    var w :| CanReach(z, w) && k.actionId in w.st.actions && w.st.actions[k.actionId].state == VerificationFailed;
    CanJoin(x, y, z);
    CanJoin(x, z, w);
  }

  lemma OvertakenReads(x: Sys, y: Sys, z: Sys, c: Contract, k: Call, l: Call, now: Time, u: nat, v: nat)
    requires k.request.target in x.st.plans && HasWritten(x, y, c, k, now, u) && l.request.target in y.st.plans
    requires CarriedOut(y, z, l, now, v) && Apart(x.st, k, l) && u != v
    ensures k.actionId in z.st.actions && z.st.actions[k.actionId] == y.st.actions[k.actionId]
    ensures u in z.threads && z.threads[u] == ExMutated(c, now, z.st.actions[k.actionId].version)
    ensures c.target in z.st.plans && z.st.plans[c.target].revision == c.expectedRevision + 2
  {
    UntouchedStays(y.st.actions, z.st.actions, k.actionId, l.actionId);
    OvertakenPlan(x, y, z, c, k, l, now, u, v);
  }

  lemma OvertakenPlan(x: Sys, y: Sys, z: Sys, c: Contract, k: Call, l: Call, now: Time, u: nat, v: nat)
    requires k.request.target in x.st.plans && HasWritten(x, y, c, k, now, u) && l.request.target in y.st.plans
    requires CarriedOut(y, z, l, now, v) && k.request.target == l.request.target
    ensures c.target in z.st.plans && z.st.plans[c.target].revision == c.expectedRevision + 2
  {
    RevisionsAdd(x.st.plans[c.target], y.st.plans[c.target], z.st.plans[c.target],
                 MutationFields(k.request.metadata), MutationFields(l.request.metadata), now);
  }

  lemma RevisionsAdd(p: ProjectPlan, q: ProjectPlan, r: ProjectPlan, f: Fields, g: Fields, now: Time)
    requires Update(p, p.revision, f, now) == Ok(q) && Update(q, q.revision, g, now) == Ok(r)
    ensures r.revision == p.revision + 2
  {
  }

  lemma UntouchedStays(m: map<ActionId, Action>, n: map<ActionId, Action>, id: ActionId, other: ActionId)
    requires other in n && n == m[other := n[other]] && id in m && id != other
    ensures id in n && n[id] == m[id]
  {
  }

  // ----- from the empty store -------------------------------------------------------------------------

  const FirstPlan := ProjectPlan(7, Staging, 1, "t", "o", 0, 0, true)

  /** An empty store after an operator opened staging and created one target. */
  function Opening(): State {
    Initial(9, 0).(plans := map[7 := FirstPlan], log := [Write(7, Creator, None, FirstPlan)],
                   switches := Seeded(0)[Staging := Switch(Disengaged, 0, 0, 2)])
  }

  function SampleCall(id: ActionId): Call {
    Call(Policy(1, {(7, Staging)}, OwnerConfirmation), Principal(5, true, 0, 1000, true),
         Request(UpdateProjectPlan, 7, id, map[Title := "n"], Staging), id, id, 0, Some(0), None, id)
  }

  function Opened(): State { Initial(9, 0).(switches := Seeded(0)[Staging := Switch(Disengaged, 0, 0, 2)]) }

  lemma StagingOpens()
    ensures Protocol.Step(Start(9, 0), ChangeSwitch(Change(false, Staging, 0))) == Sys(Opened(), map[])
  {
  }

  lemma TargetIsCreated()
    ensures Protocol.Step(Sys(Opened(), map[]), CreateTarget(7, Staging, "t", "o", 0, true)) == Sys(Opening(), map[])
  {
    assert NewPlan(7, Staging, "t", "o", 0, true) == Ok(FirstPlan);
  }

  lemma OpeningIsReached()
    ensures CanReach(Start(9, 0), Sys(Opening(), map[]))
  {
    var x := Start(9, 0);
    CanStay(x);
    StagingOpens();
    CanGoOn(x, x, ChangeSwitch(Change(false, Staging, 0)));
    TargetIsCreated();
    CanGoOn(x, Sys(Opened(), map[]), CreateTarget(7, Staging, "t", "o", 0, true));
  }

  lemma SampleIsFresh(id: ActionId)
    ensures Fresh(Opening(), SampleCall(id), 0)
  {
    var r := SampleCall(id).request;
    assert Title in MutationFields(r.metadata) && MutationFields(r.metadata)[Title] == "n";
    assert MutationFields(r.metadata) == r.metadata;
  }

  /** Some runs end in success and some in a failed verification. */
  lemma BothEndsAreReachable()
    ensures exists y :: CanReach(Start(9, 0), y) && 1 in y.st.actions && y.st.actions[1].state == VerifiedSuccess
    ensures exists y :: CanReach(Start(9, 0), y) && 1 in y.st.actions && y.st.actions[1].state == VerificationFailed
  {
    var x, s := Start(9, 0), Sys(Opening(), map[]);
    InitialOk(9, 0);
    OpeningIsReached();
    ReachedIsOk(x, s);
    SampleIsFresh(1);
    SampleIsFresh(2);
    FreshRequestCompletes(s, SampleCall(1), 0, 0, 0, 0);
    var y :| CanReach(s, y) && CarriedOut(s, y, SampleCall(1), 0, 0);
    CanJoin(x, s, y);
    VerificationCanFail(s, SampleCall(1), SampleCall(2), 0, 0, 1);
    var w :| CanReach(s, w) && 1 in w.st.actions && w.st.actions[1].state == VerificationFailed;
    CanJoin(x, s, w);
  }
}
