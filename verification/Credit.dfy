/** Reconciliation credits content, not authorship.  In every run, whenever it
    records SUCCEEDED it does so for an action that never wrote, on the strength
    of a rival's write (`Theorems.SuccessIsAnothers`).  Here are the runs in which
    it does. */
module Credit {
  import opened Types
  import opened Lifecycle
  import opened Plans
  import opened KillSwitch
  import opened Store
  import opened Gate
  import opened Executor
  import opened Service
  import opened Protocol
  import opened Invariant
  import opened Reachable
  import opened Progress
  import A = Alone
  import P = Preservation
  import T = Theorems
  import W = Stepwise

  lemma ReachedEvolves(x: Sys, y: Sys)
    requires SysInv(x) && CanReach(x, y)
    ensures SysInv(y) && Evolves(x.st, y.st)
  {
    var es :| Run(x, es) == y;
    RunKeeps(x, es);
  }

  // ----- one reconciliation -----------------------------------------------------------

  /** The action is RUNNING, its content stands as the next revision, and it can
      still be settled. */
  predicate Creditable(s: State, id: ActionId, now: Time) {
    && id in s.actions && id in s.decisions
    && var a := s.actions[id];
       && a.state == Running && a.operation == UpdateProjectPlan && now < a.expiresAt
       && a.target in s.plans && s.plans[a.target].revision == a.planRevision + 1
       && Carries(s.plans[a.target], s.decisions[id].Mutation())
  }

  lemma ReconcileContract(s: State, id: ActionId, cid: ConfirmationId, now: Time)
    requires Inv(s) && Creditable(s, id, now)
    ensures var c := ContractForReconcile(s, id, cid);
            && c.Ok? && c.value.actionId == id && c.value.target == s.actions[id].target
            && c.value.expectedRevision == s.actions[id].planRevision && c.value.fields == s.decisions[id].Mutation()
  {
    assert ActionOk(s, id);
    P.LoggedIsStaging(s.plans, s.log, s.actions[id].target, s.decisions[id].identity.targetDigest);
    LoggedIsPositive(s, s.actions[id].target, s.decisions[id].identity.targetDigest);
  }

  lemma LoggedIsPositive(s: State, t: Target, p: ProjectPlan)
    requires LogOk(s.plans, s.log) && Logged(s.log, t, p)
    ensures p.revision >= 1
  {
    var i :| 0 <= i < |s.log| && s.log[i].target == t && s.log[i].after == p;
    assert WriteOk(s.log[i]);
  }

  lemma GoReport(x: Sys, s: State, id: ActionId, version: nat)
    requires CanReach(x, x.(st := s)) && id in s.actions && s.actions[id].version == version
    ensures CanReach(x, x.(st := s.(outcomes := s.outcomes[id := UnknownOutcome])))
  {
    CanGoOn(x, x.(st := s), ReportOutcome(id, version, UnknownOutcome));
  }

  lemma GoReconcile(x: Sys, y: Sys, t: nat, id: ActionId, cid: ConfirmationId, now: Time, c: Contract)
    requires CanReach(x, y) && Pc0(y, t) == Idle && ContractForReconcile(y.st, id, cid) == Ok(c)
    ensures CanReach(x, y.(threads := y.threads[t := RcBuilt(c, now)]))
  {
    CanGoOn(x, y, StartReconcile(t, id, cid, now));
  }

  lemma ObservesSuccess(g: W.Given, s: State, c: Contract, now: Time)
    requires c.actionId in s.actions && c.actionId in s.outcomes && s.outcomes[c.actionId] == UnknownOutcome
    requires c.target in s.plans && Classify(c, s.plans[c.target]) == MutationSucceeded
    ensures W.Leads(g, Move(s, RcBuilt(c, now)),
                    Move(s, RcObserved(c, now, s.actions[c.actionId].version, MutationSucceeded)))
  {
    var a, b := Move(s, RcBuilt(c, now)), Move(s, RcAsked(c, now, s.actions[c.actionId].version));
    W.Last(g, b, Move(s, RcObserved(c, now, s.actions[c.actionId].version, MutationSucceeded)));
    W.Step(g, a, b, Move(s, RcObserved(c, now, s.actions[c.actionId].version, MutationSucceeded)));
  }

  /** A caller is about to credit the action, and will. */
  predicate Crediting(y: Sys, t: nat, id: ActionId) {
    && T.Concluding(y, t, MutationSucceeded) && y.threads[t].c.actionId == id
    && id in y.st.actions && y.threads[t].version == y.st.actions[id].version
    && y.st.actions[id].state == Running && y.threads[t].now < y.st.actions[id].expiresAt
  }

  lemma CreditingCredits(y: Sys, t: nat, id: ActionId, cid: ConfirmationId, lid: LeaseId)
    requires SysInv(y) && Crediting(y, t, id)
    ensures var z := Protocol.Step(y, Continue(t, cid, lid));
            && id in z.st.actions && z.st.actions[id].state == ExecutedPendingVerification
            && id in z.st.outcomes && z.st.outcomes[id] == MutationSucceeded && z.st.log == y.st.log
  {
    var pc := y.threads[t];
    assert ActionOk(y.st, id);
    T.SettleStepIs(y, t, cid, lid);
    A.SettleIs(y.st, pc.c, MutationSucceeded, pc.now);
  }

  function Reported(x: Sys, id: ActionId): Sys { x.(st := x.st.(outcomes := x.st.outcomes[id := UnknownOutcome])) }

  lemma ReportReaches(x: Sys, id: ActionId)
    requires SysInv(x) && id in x.st.actions
    ensures CanReach(x, Reported(x, id)) && SysInv(Reported(x, id))
  {
    CanStay(x);
    GoReport(x, x.st, id, x.st.actions[id].version);
    ReachedIsOk(x, Reported(x, id));
  }

  lemma ObservedReaches(x: Sys, y: Sys, t: nat, id: ActionId, cid: ConfirmationId, now: Time, c: Contract)
    requires CanReach(x, y) && Pc0(y, t) == Idle && ContractForReconcile(y.st, id, cid) == Ok(c)
    requires c.actionId in y.st.actions && c.actionId in y.st.outcomes && y.st.outcomes[c.actionId] == UnknownOutcome
    requires c.target in y.st.plans && Classify(c, y.st.plans[c.target]) == MutationSucceeded
    ensures var pc := RcObserved(c, now, y.st.actions[c.actionId].version, MutationSucceeded);
            CanReach(x, y.(threads := y.threads[t := pc]))
  {
    var z := y.(threads := y.threads[t := RcBuilt(c, now)]);
    var pc := RcObserved(c, now, y.st.actions[c.actionId].version, MutationSucceeded);
    GoReconcile(x, y, t, id, cid, now, c);
    var g := W.Given(cid, 0);
    ObservesSuccess(g, y.st, c, now);
    LeadsReaches(z, t, g, Move(y.st, pc));
    assert z.threads[t := pc] == y.threads[t := pc];
    CanJoin(x, z, y.(threads := y.threads[t := pc]));
  }

  lemma ContractCredits(s: State, id: ActionId, cid: ConfirmationId, now: Time)
    requires Inv(s) && Creditable(s, id, now)
    ensures var c := ContractForReconcile(s, id, cid);
            && c.Ok? && c.value.actionId == id && c.value.target in s.plans
            && Classify(c.value, s.plans[c.value.target]) == MutationSucceeded
  {
    ReconcileContract(s, id, cid, now);
    CreditableClassifies(s, id, now, ContractForReconcile(s, id, cid).value);
  }

  /** From any reachable state, an action whose content stands can be credited,
      whoever wrote it. */
  lemma CanBeCredited(x: Sys, id: ActionId, t: nat, now: Time, cid: ConfirmationId)
    requires SysInv(x) && Creditable(x.st, id, now) && Pc0(x, t) == Idle
    ensures exists y :: CanReach(x, y) && Crediting(y, t, id) && y.st.log == x.st.log
  {
    var y := Reported(x, id);
    ReportReaches(x, id);
    CreditableStill(x, id, now);
    ContractCredits(y.st, id, cid, now);
    ObservedReaches(x, y, t, id, cid, now, ContractForReconcile(y.st, id, cid).value);
  }

  lemma CreditableStill(x: Sys, id: ActionId, now: Time)
    requires Creditable(x.st, id, now)
    ensures Creditable(Reported(x, id).st, id, now)
  {
  }

  lemma CreditableClassifies(s: State, id: ActionId, now: Time, c: Contract)
    requires Creditable(s, id, now) && c.target == s.actions[id].target
             && c.expectedRevision == s.actions[id].planRevision
    requires c.fields == s.decisions[id].Mutation()
    ensures Classify(c, s.plans[c.target]) == MutationSucceeded
  {
  }

  // ----- two requests for the same content ------------------------------------------------

  lemma BegunGrown(s: State, l: State, c: Contract, k: Call, now: Time)
    requires Grown(s, l, k, now) && c.actionId == k.actionId && c.confirmationId == Cid(k, now)
    ensures var t := A.Begun(l, c);
            && Grown(s, t, k, now) && t.plans == l.plans && t.actions[k.actionId].state == Running
            && t.decisions == l.decisions
  {
    var t := A.Begun(l, c);
    assert t.actions == s.actions[k.actionId := t.actions[k.actionId]];
    assert t.bindings == s.bindings[Cid(k, now) := t.bindings[Cid(k, now)]];
  }

  lemma StillFreshBeside(s: State, t: State, k: Call, l: Call, now: Time)
    requires Fresh(s, k, now) && Fresh(s, l, now) && Apart(s, k, l) && Grown(s, t, k, now) && t.plans == s.plans
    ensures Fresh(t, l, now)
  {
    assert |t.actions| <= |s.actions| + 1;
    assert |t.bindings| <= |s.bindings| + 1;
  }

  /** The stored action and decision are those of the request. */
  predicate Bears(s: State, l: State, k: Call)
    requires k.request.target in s.plans
  {
    && k.actionId in l.actions && k.actionId in l.decisions
    && l.decisions[k.actionId].Mutation() == MutationFields(k.request.metadata)
    && l.actions[k.actionId].planRevision == Plan(s, k).revision
    && l.actions[k.actionId].operation == UpdateProjectPlan && l.actions[k.actionId].target == k.request.target
  }

  lemma LeasedBears(s: State, k: Call, now: Time, sid: SnapshotId, lid: LeaseId)
    requires Fresh(s, k, now)
    ensures Bears(s, LeasedAt(s, k, now, sid, lid), k)
  {
  }

  /** A fresh request has started executing and has not written yet. */
  predicate HasBegun(x: Sys, y: Sys, k: Call, now: Time, u: nat, pc: Pc)
    requires k.request.target in x.st.plans
  {
    && Grown(x.st, y.st, k, now) && Bears(x.st, y.st, k)
    && y.st.plans == x.st.plans && y.threads == x.threads[u := pc] && y.st.actions[k.actionId].state == Running
  }

  lemma BegunIs(x: Sys, z: Sys, c: Contract, k: Call, now: Time, u: nat, pc: Pc)
    requires k.request.target in x.st.plans && Prepared(x, z, c, k, now, u)
    requires Grown(x.st, z.st, k, now) && Bears(x.st, z.st, k) && c.confirmationId == Cid(k, now)
    ensures HasBegun(x, Sys(A.Begun(z.st, c), z.threads[u := pc]), k, now, u, pc)
  {
    BegunGrown(x.st, z.st, c, k, now);
    assert z.threads[u := pc] == x.threads[u := pc];
  }

  lemma BeginReaches(x: Sys, z: Sys, c: Contract, now: Time, lid: LeaseId, u: nat)
    requires CanReach(x, z) && u in z.threads && z.threads[u] == ExBuilt(c, now)
    requires A.Admissible(z.st, c, now) && z.st.actions[c.actionId].approver.Some?
    ensures CanReach(x, Sys(A.Begun(z.st, c), z.threads[u := ExBegun(c, now, z.st.actions[c.actionId].version + 1)]))
  {
    var g, pc := W.Given(c.confirmationId, lid), ExBegun(c, now, z.st.actions[c.actionId].version + 1);
    PreparePath(g, z.st, c, now);
    LeadsReaches(z, u, g, Move(A.Begun(z.st, c), pc));
    CanJoin(x, z, Sys(A.Begun(z.st, c), z.threads[u := pc]));
  }

  lemma FreshRequestBegins(x: Sys, k: Call, now: Time, sid: SnapshotId, lid: LeaseId, u: nat)
    requires SysInv(x) && Fresh(x.st, k, now) && Pc0(x, u) == Idle
    ensures exists y, pc :: CanReach(x, y) && HasBegun(x, y, k, now, u, pc)
  {
    var z, c := Under(x, k, now, sid, lid, u), ContractAt(x.st, k, now, sid, lid);
    ReachesContract(x, k, now, sid, lid, u);
    LeasedParts(x.st, k, now, sid, lid);
    LeasedGrown(x.st, k, now, sid, lid);
    LeasedBears(x.st, k, now, sid, lid);
    BeginReaches(x, z, c, now, lid, u);
    BegunIs(x, z, c, k, now, u, ExBegun(c, now, z.st.actions[c.actionId].version + 1));
  }

  lemma CarriedOutIsCreditable(x: Sys, y: Sys, z: Sys, k: Call, l: Call, now: Time, u: nat, v: nat, pc: Pc)
    requires k.request.target in x.st.plans && HasBegun(x, y, k, now, u, pc) && l.request.target in y.st.plans
    requires CarriedOut(y, z, l, now, v) && Evolves(y.st, z.st) && k.actionId != l.actionId
    requires k.request.target == l.request.target
    requires MutationFields(k.request.metadata) == MutationFields(l.request.metadata)
    ensures Creditable(z.st, k.actionId, now)
  {
    UntouchedStays(y.st.actions, z.st.actions, k.actionId, l.actionId);
    assert IdEvolves(y.st, z.st, k.actionId);
  }

  lemma IdleBeside(x: Sys, y: Sys, u: nat, pc: Pc, v: nat)
    requires y.threads == x.threads[u := pc] && u != v && Pc0(x, v) == Idle
    ensures Pc0(y, v) == Idle
  {
  }

  /** The second request is carried out while the first is under way. */
  lemma OtherCarriedOut(x: Sys, y: Sys, k: Call, l: Call, now: Time, u: nat, v: nat, t: nat, pc: Pc)
    requires SysInv(y) && k.request.target in x.st.plans && HasBegun(x, y, k, now, u, pc) && Fresh(y.st, l, now)
    requires k.actionId != l.actionId && k.request.target == l.request.target
    requires MutationFields(k.request.metadata) == MutationFields(l.request.metadata)
    requires v != t && Pc0(y, v) == Idle && Pc0(y, t) == Idle
    ensures exists z :: CanReach(y, z) && Creditable(z.st, k.actionId, now) && Pc0(z, t) == Idle
  {
    FreshRequestCompletes(y, l, now, 1, 1, v);
    var z :| CanReach(y, z) && CarriedOut(y, z, l, now, v);
    ReachedEvolves(y, z);
    CarriedOutIsCreditable(x, y, z, k, l, now, u, v, pc);
    IdleBeside(y, z, v, Idle, t);
  }

  lemma BegunIsCredited(x: Sys, y: Sys, k: Call, l: Call, now: Time, u: nat, v: nat, t: nat, pc: Pc)
    requires SysInv(y) && CanReach(x, y) && k.request.target in x.st.plans && HasBegun(x, y, k, now, u, pc)
             && Fresh(y.st, l, now)
    requires k.actionId != l.actionId && k.request.target == l.request.target
    requires MutationFields(k.request.metadata) == MutationFields(l.request.metadata)
    requires v != t && Pc0(y, v) == Idle && Pc0(y, t) == Idle
    ensures exists w :: CanReach(x, w) && Crediting(w, t, k.actionId) && !T.WroteBy(w.st, k.actionId)
  {
    OtherCarriedOut(x, y, k, l, now, u, v, t, pc);
    var z :| CanReach(y, z) && Creditable(z.st, k.actionId, now) && Pc0(z, t) == Idle;
    ReachedIsOk(y, z);
    CreditedUnwritten(z, k.actionId, t, now);
    var w :| CanReach(z, w) && Crediting(w, t, k.actionId) && !T.WroteBy(w.st, k.actionId);
    CanJoin(y, z, w);
    CanJoin(x, y, w);
  }

  /** For any two fresh requests with the same content for one target there is a
      run in which the first, having written nothing, is concluded SUCCEEDED
      because the second one's write stands. */
  lemma SuccessCanBeAnothers(x: Sys, k: Call, l: Call, now: Time, u: nat, v: nat, t: nat)
    requires SysInv(x) && Fresh(x.st, k, now) && Fresh(x.st, l, now) && Apart(x.st, k, l)
    requires MutationFields(k.request.metadata) == MutationFields(l.request.metadata)
    requires u != v && v != t && u != t && Pc0(x, u) == Idle && Pc0(x, v) == Idle && Pc0(x, t) == Idle
    ensures exists y :: CanReach(x, y) && Crediting(y, t, k.actionId) && !T.WroteBy(y.st, k.actionId)
  {
    FreshRequestBegins(x, k, now, 0, 0, u);
    var y, pc :| CanReach(x, y) && HasBegun(x, y, k, now, u, pc);
    ReachedIsOk(x, y);
    StillFreshBeside(x.st, y.st, k, l, now);
    IdleBeside(x, y, u, pc, v);
    IdleBeside(x, y, u, pc, t);
    BegunIsCredited(x, y, k, l, now, u, v, t, pc);
  }

  lemma CreditedUnwritten(z: Sys, id: ActionId, t: nat, now: Time)
    requires SysInv(z) && Creditable(z.st, id, now) && Pc0(z, t) == Idle
    ensures exists w :: CanReach(z, w) && Crediting(w, t, id) && !T.WroteBy(w.st, id)
  {
    T.RunningNeverWrote(z.st, id);
    CanBeCredited(z, id, t, now, ConfirmationId(0, 0, 0));
    var w :| CanReach(z, w) && Crediting(w, t, id) && w.st.log == z.st.log;
    assert !T.WroteBy(w.st, id);
  }

  /** The step from `y` to `z` credits an action that never wrote. */
  predicate Miscredits(y: Sys, z: Sys, t: nat, id: ActionId) {
    && T.Concluding(y, t, MutationSucceeded) && y.threads[t].c.actionId == id
    && id in z.st.outcomes && z.st.outcomes[id] == MutationSucceeded && !T.WroteBy(z.st, id)
  }

  /** Such a run starts from the empty store, and the conclusion is recorded. */
  lemma MiscreditIsReachable()
    ensures exists y :: CanReach(Start(9, 0), y)
                        && Miscredits(y, Protocol.Step(y, Continue(2, ConfirmationId(0, 0, 0), 0)), 2, 1)
  {
    var x, s := Start(9, 0), Sys(Opening(), map[]);
    InitialOk(9, 0);
    OpeningIsReached();
    ReachedIsOk(x, s);
    SampleIsFresh(1);
    SampleIsFresh(2);
    SuccessCanBeAnothers(s, SampleCall(1), SampleCall(2), 0, 0, 1, 2);
    var y :| CanReach(s, y) && Crediting(y, 2, 1) && !T.WroteBy(y.st, 1);
    CanJoin(x, s, y);
    ReachedIsOk(x, y);
    CreditingCredits(y, 2, 1, ConfirmationId(0, 0, 0), 0);
    var z := Protocol.Step(y, Continue(2, ConfirmationId(0, 0, 0), 0));
    assert !T.WroteBy(z.st, 1);
  }
}
