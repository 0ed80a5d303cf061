/** Runs in which `run_approved_update` really gets to the engine, and in which
    two overlapping callers both get to the runtime call. */
module UpdateWitness {
  import opened Types
  import opened Lifecycle
  import opened Plans
  import opened Store
  import opened Service
  import opened UpdateRun
  import A = Alone
  import F = Fence
  import G = Progress
  import P = Protocol
  import R = Reachable
  import W = Stepwise

  ghost predicate CanReach(w: World, v: World) { exists es :: Run(w, es) == v }

  lemma CanStay(w: World)
    ensures CanReach(w, w)
  {
    assert Run(w, []) == w;
  }

  lemma CanGoOn(w: World, v: World, e: Event)
    requires CanReach(w, v)
    ensures CanReach(w, UpdateRun.Step(v, e))
  {
    var es :| Run(w, es) == v;
    assert (es + [e])[..|es|] == es;
    assert Run(w, es + [e]) == UpdateRun.Step(v, e);
  }

  lemma ReachedIsOk(w: World, v: World)
    requires Inv(w) && CanReach(w, v)
    ensures Inv(v)
  {
    var es :| Run(w, es) == v;
    RunKeeps(w, es);
  }

  /** Whatever the control plane can do alone it can do here. */
  lemma {:induction false} ControlRuns(w: World, v: World, es: seq<P.Event>)
    requires CanReach(w, v)
    ensures CanReach(w, v.(sys := P.Run(v.sys, es)))
    decreases |es|
  {
    if es == [] { return; }
    var before := es[..|es| - 1];
    ControlRuns(w, v, before);
    CanGoOn(w, v.(sys := P.Run(v.sys, before)), Control(es[|es| - 1]));
  }

  lemma ControlReaches(w: World, v: World, y: P.Sys)
    requires CanReach(w, v) && G.CanReach(v.sys, y)
    ensures CanReach(w, v.(sys := y))
  {
    var es :| P.Run(v.sys, es) == y;
    ControlRuns(w, v, es);
  }

  // ----- two callers ------------------------------------------------------------------

  lemma GoEnter(w: World, v: World, u: nat, id: ActionId)
    requires CanReach(w, v) && id in v.sys.st.actions && !Concluded(v.sys.st.actions[id].state)
    ensures CanReach(w, v.(callers := v.callers[u := Entered(id, false)]))
  {
    CanGoOn(w, v, Enter(u, id));
  }

  lemma GoDerive(w: World, v: World, u: nat, id: ActionId, cid: ConfirmationId, key: F.FenceKey)
    requires CanReach(w, v) && u in v.callers && v.callers[u] == Entered(id, false)
    requires id in v.sys.st.actions && v.sys.st.actions[id].state == VerifiedSuccess
             && BindingFor(v.sys.st, id, cid) == Ok(key)
    ensures CanReach(w, v.(callers := v.callers[u := Sending(key)]))
  {
    CanGoOn(w, v, Derive(u, cid));
  }

  /** What a finished execution leaves on record for the binding. */
  lemma FinishedBinds(l: State, c: Contract, p: ProjectPlan)
    requires c.actionId in l.actions && c.confirmationId in l.bindings && c.target in l.plans && c.actionId in l.leases
    requires c.actionId in l.decisions && NamesDigest(l.decisions[c.actionId].request)
    requires l.bindings[c.confirmationId].actionId == c.actionId && l.leases[c.actionId].fencingToken == 1
    ensures var t := A.Finished(l, c, p);
            && c.actionId in t.actions && t.actions[c.actionId].state == VerifiedSuccess
            && BindingFor(t, c.actionId, c.confirmationId) == Ok(F.FenceKey(c.actionId, 1))
  {
  }

  lemma LeasedBinds(s: State, k: Call, now: Time, sid: SnapshotId, lid: LeaseId)
    requires G.Fresh(s, k, now)
    ensures var l, c := G.LeasedAt(s, k, now, sid, lid), G.ContractAt(s, k, now, sid, lid);
            && c.actionId == k.actionId && c.actionId in l.actions && l.actions[c.actionId].state == Leased
            && c.confirmationId in l.bindings && c.target in l.plans && c.actionId in l.leases
            && c.actionId in l.decisions && l.decisions[c.actionId].request == k.request
            && l.bindings[c.confirmationId].actionId == c.actionId && l.leases[c.actionId].fencingToken == 1
            && l.plans == s.plans && c.target == k.request.target && c.fields == MutationFields(k.request.metadata)
  {
  }

  /** A leased update action whose contract is about to be executed. */
  predicate Launching(x: P.Sys, th: nat, c: Contract, now: Time) {
    && th in x.threads && x.threads[th] == P.ExBuilt(c, now) && A.Admissible(x.st, c, now)
    && Acceptable(x.st.plans[c.target], c.fields)
    && c.actionId in x.st.decisions && NamesDigest(x.st.decisions[c.actionId].request)
    && c.fencingToken == 1
  }

  /** The same, and two callers have entered. */
  predicate Overlapping(w: World, u: nat, v: nat, th: nat, c: Contract, now: Time) {
    && u != v && u in w.callers && v in w.callers
    && w.callers[u] == Entered(c.actionId, false) && w.callers[v] == Entered(c.actionId, false)
    && Launching(w.sys, th, c, now)
  }

  /** Two distinct callers hold the same key, and the executor is as it was. */
  predicate TwoSending(w: World, x: World, u: nat, v: nat, key: F.FenceKey) {
    && u != v && u in x.callers && v in x.callers && x.callers[u] == Sending(key) && x.callers[v] == Sending(key)
    && x.fence == w.fence
  }

  lemma BothDerive(w: World, a: World, u: nat, v: nat, id: ActionId, cid: ConfirmationId, key: F.FenceKey)
    returns (y: World)
    requires CanReach(w, a) && u != v && u in a.callers && v in a.callers
    requires a.callers[u] == Entered(id, false) && a.callers[v] == Entered(id, false)
    requires id in a.sys.st.actions && a.sys.st.actions[id].state == VerifiedSuccess
             && BindingFor(a.sys.st, id, cid) == Ok(key)
    ensures CanReach(w, y) && TwoSending(a, y, u, v, key)
  {
    GoDerive(w, a, u, id, cid, key);
    var b := a.(callers := a.callers[u := Sending(key)]);
    GoDerive(w, b, v, id, cid, key);
    y := b.(callers := b.callers[v := Sending(key)]);
  }

  /** The lease of an admissible contract is the contract's. */
  lemma AdmissibleBinds(s: State, c: Contract, now: Time)
    requires A.Admissible(s, c, now) && c.fencingToken == 1
    ensures c.actionId in s.actions && c.confirmationId in s.bindings && c.target in s.plans && c.actionId in s.leases
    ensures s.bindings[c.confirmationId].actionId == c.actionId && s.leases[c.actionId].fencingToken == 1
  {
  }

  lemma BothSend(w: World, x: World, u: nat, v: nat, th: nat, c: Contract, now: Time) returns (y: World)
    requires CanReach(w, x) && R.SysInv(x.sys) && Overlapping(x, u, v, th, c, now)
    ensures CanReach(w, y) && TwoSending(x, y, u, v, F.FenceKey(c.actionId, 1))
  {
    G.ExecutesTo(x.sys, c, now, W.Given(c.confirmationId, 0), th);
    AdmissibleBinds(x.sys.st, c, now);
    var p := A.NextPlan(x.sys.st, c, now).value;
    var z := P.Sys(A.Finished(x.sys.st, c, p), x.sys.threads[th := P.Idle]);
    FinishedBinds(x.sys.st, c, p);
    ControlReaches(w, x, z);
    y := BothDerive(w, x.(sys := z), u, v, c.actionId, c.confirmationId, F.FenceKey(c.actionId, 1));
  }

  lemma BothEnter(w: World, a: World, u: nat, v: nat, id: ActionId) returns (x: World)
    requires CanReach(w, a) && u != v && id in a.sys.st.actions && !Concluded(a.sys.st.actions[id].state)
    ensures CanReach(w, x) && x.sys == a.sys && x.fence == a.fence && u in x.callers && v in x.callers
    ensures x.callers[u] == Entered(id, false) && x.callers[v] == Entered(id, false)
  {
    GoEnter(w, a, u, id);
    var b := a.(callers := a.callers[u := Entered(id, false)]);
    GoEnter(w, b, v, id);
    x := b.(callers := b.callers[v := Entered(id, false)]);
  }

  lemma UnderLaunches(x: P.Sys, k: Call, now: Time, th: nat)
    requires G.Fresh(x.st, k, now) && NamesDigest(k.request)
    requires A.Admissible(G.LeasedAt(x.st, k, now, 0, 0), G.ContractAt(x.st, k, now, 0, 0), now)
    ensures Launching(G.Under(x, k, now, 0, 0, th), th, G.ContractAt(x.st, k, now, 0, 0), now)
  {
    LeasedBinds(x.st, k, now, 0, 0);
  }

  lemma ReachesLaunching(w: World, k: Call, now: Time, th: nat) returns (z: P.Sys, c: Contract)
    requires Inv(w) && G.Fresh(w.sys.st, k, now) && NamesDigest(k.request) && P.Pc0(w.sys, th) == P.Idle
    ensures CanReach(w, w.(sys := z)) && Launching(z, th, c, now) && c.actionId == k.actionId
  {
    z, c := G.Under(w.sys, k, now, 0, 0, th), G.ContractAt(w.sys.st, k, now, 0, 0);
    G.ReachesContract(w.sys, k, now, 0, 0, th);
    UnderLaunches(w.sys, k, now, th);
    CanStay(w);
    ControlReaches(w, w, z);
  }

  lemma ReachesOverlapping(w: World, k: Call, now: Time, th: nat, u: nat, v: nat) returns (x: World, c: Contract)
    requires Inv(w) && G.Fresh(w.sys.st, k, now) && NamesDigest(k.request) && P.Pc0(w.sys, th) == P.Idle && u != v
    ensures CanReach(w, x) && Overlapping(x, u, v, th, c, now) && c.actionId == k.actionId && x.fence == w.fence
  {
    var z: P.Sys;
    z, c := ReachesLaunching(w, k, now, th);
    LaunchingIsOpen(z, th, c, now);
    x := BothEnter(w, w.(sys := z), u, v, k.actionId);
  }

  lemma LaunchingIsOpen(z: P.Sys, th: nat, c: Contract, now: Time)
    requires Launching(z, th, c, now)
    ensures c.actionId in z.st.actions && !Concluded(z.st.actions[c.actionId].state)
  {
  }

  /** From every reachable world, for every fresh update request, there is a run
      in which two overlapping callers both get to the runtime call with the same
      key. */
  lemma OverlappingCallersBothSend(w: World, k: Call, now: Time, th: nat, u: nat, v: nat)
    requires Inv(w) && G.Fresh(w.sys.st, k, now) && NamesDigest(k.request) && P.Pc0(w.sys, th) == P.Idle && u != v
    ensures exists x :: CanReach(w, x) && TwoSending(w, x, u, v, F.FenceKey(k.actionId, 1))
  {
    var x, c := ReachesOverlapping(w, k, now, th, u, v);
    ReachedIsOk(w, x);
    var y := BothSend(w, x, u, v, th, c, now);
    assert TwoSending(w, y, u, v, F.FenceKey(k.actionId, 1));
  }

  // ----- one engine call -----------------------------------------------------------------

  function ZeroOrder(key: F.FenceKey): F.Order {
    F.UpdateOrder(key, F.ExecuteUpdatePlan, 0, 0, seq(64, _ => '0'), seq(32, _ => '0'), None)
  }

  lemma ZeroIsAdmissible(config: F.Config, key: F.FenceKey)
    requires config.hasEngine
    ensures F.Admissible(config, ZeroOrder(key))
  {
  }

  /** The fence lets a first order through to the engine. */
  lemma FirstOrderRuns(s: F.State, key: F.FenceKey)
    requires s.config.hasEngine && key !in s.rows
    ensures var a := F.Step(s, F.Receive(ZeroOrder(key)));
            var b := F.Step(a, F.Claim(s.next, F.NoFault));
            var d := F.Step(b, F.Invoke(s.next));
            d.calls == s.calls + [F.Invocation(s.next, key)]
  {
    ZeroIsAdmissible(s.config, key);
  }

  lemma FreshKeyIsUnclaimed(w: World, id: ActionId)
    requires Inv(w) && id !in w.sys.st.actions
    ensures F.FenceKey(id, 1) !in w.fence.rows
  {
  }

  lemma SendingRuns(w: World, x: World, u: nat, v: nat, key: F.FenceKey)
    requires CanReach(w, x) && TwoSending(w, x, u, v, key) && w.fence.config.hasEngine && key !in w.fence.rows
    ensures exists y :: CanReach(w, y) && y.fence.calls == w.fence.calls + [F.Invocation(w.fence.next, key)]
                        && v in y.callers && y.callers[v] == Sending(key)
  {
    FirstOrderRuns(w.fence, key);
    var n := w.fence.next;
    CanGoOn(w, x, Send(u, ZeroOrder(key)));
    var a := UpdateRun.Step(x, Send(u, ZeroOrder(key)));
    CanGoOn(w, a, Serve(F.Claim(n, F.NoFault)));
    var b := UpdateRun.Step(a, Serve(F.Claim(n, F.NoFault)));
    CanGoOn(w, b, Serve(F.Invoke(n)));
  }

  /** In some continuation of every reachable world the engine runs for a fresh
      update request, while a second caller is still about to ask for it. */
  lemma EngineCanRun(w: World, k: Call, now: Time, th: nat, u: nat, v: nat)
    requires Inv(w) && G.Fresh(w.sys.st, k, now) && NamesDigest(k.request) && P.Pc0(w.sys, th) == P.Idle && u != v
    requires w.fence.config.hasEngine
    ensures exists y :: CanReach(w, y) && y.fence.calls ==
                                          w.fence.calls + [F.Invocation(w.fence.next, F.FenceKey(k.actionId, 1))]
                        && v in y.callers && y.callers[v] == Sending(F.FenceKey(k.actionId, 1))
  {
    OverlappingCallersBothSend(w, k, now, th, u, v);
    var x :| CanReach(w, x) && TwoSending(w, x, u, v, F.FenceKey(k.actionId, 1));
    FreshKeyIsUnclaimed(w, k.actionId);
    SendingRuns(w, x, u, v, F.FenceKey(k.actionId, 1));
  }

  // ----- from the empty store ----------------------------------------------------------------

  function SampleUpdate(): Call {
    G.SampleCall(1).(request := Request(UpdateProjectPlan, 7, 1, map[Title := "n", UpdatePlanDigest := "d"], Staging))
  }

  lemma SampleUpdateIsFresh()
    ensures G.Fresh(G.Opening(), SampleUpdate(), 0) && NamesDigest(SampleUpdate().request)
  {
    var f := MutationFields(SampleUpdate().request.metadata);
    assert Title in f && f[Title] == "n" && f.Keys == {Title};
  }

  function Opened(): World { World(P.Sys(G.Opening(), map[]), F.Initial(F.Config(true, false)), map[]) }

  lemma OpenedIsReached()
    ensures CanReach(Start(9, 0, F.Config(true, false)), Opened()) && Inv(Opened())
  {
    var w := Start(9, 0, F.Config(true, false));
    R.InitialOk(9, 0);
    G.OpeningIsReached();
    CanStay(w);
    ControlReaches(w, w, P.Sys(G.Opening(), map[]));
    assert Inv(w);
    ReachedIsOk(w, Opened());
  }

  lemma CanJoin(w: World, x: World, y: World)
    requires CanReach(w, x) && CanReach(x, y)
    ensures CanReach(w, y)
  {
    var es :| Run(x, es) == y;
    JoinRun(w, x, es);
  }

  lemma {:induction false} JoinRun(w: World, x: World, es: seq<Event>)
    requires CanReach(w, x)
    ensures CanReach(w, Run(x, es))
    decreases |es|
  {
    if es == [] { return; }
    JoinRun(w, x, es[..|es| - 1]);
    CanGoOn(w, Run(x, es[..|es| - 1]), es[|es| - 1]);
  }

  /** Started empty, some run brings two callers to the runtime call with one
      key, and some run brings the engine to its one call. */
  lemma EngineIsReachable()
    ensures exists x :: CanReach(Start(9, 0, F.Config(true, false)), x)
                        && TwoSending(Opened(), x, 1, 2, F.FenceKey(1, 1))
    ensures exists y :: CanReach(Start(9, 0, F.Config(true, false)), y) && |y.fence.calls| == 1
  {
    var w := Start(9, 0, F.Config(true, false));
    OpenedIsReached();
    SampleUpdateIsFresh();
    OverlappingCallersBothSend(Opened(), SampleUpdate(), 0, 0, 1, 2);
    var x :| CanReach(Opened(), x) && TwoSending(Opened(), x, 1, 2, F.FenceKey(1, 1));
    CanJoin(w, Opened(), x);
    EngineCanRun(Opened(), SampleUpdate(), 0, 0, 1, 2);
    var y :| CanReach(Opened(), y)
             && y.fence.calls == Opened().fence.calls + [F.Invocation(Opened().fence.next, F.FenceKey(1, 1))]
             && 2 in y.callers && y.callers[2] == Sending(F.FenceKey(1, 1));
    CanJoin(w, Opened(), y);
  }
}
