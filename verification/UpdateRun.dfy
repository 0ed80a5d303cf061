/** `run_approved_update` (control_plane/service.py) end to end: any number of
    overlapping callers over the interleaved control plane, the IPC runtime
    (composition/executor_update.py) and the executor's receipt fence. */
module UpdateRun {
  import opened Types
  import opened Lifecycle
  import opened Plans
  import opened Store
  import opened Executor
  import P = Protocol
  import I = Invariant
  import R = Reachable
  import F = Fence

  /** One caller of `run_approved_update`.  What it does between entering and
      deriving its binding are events of the control plane like any others. */
  datatype Caller =
    | Entered(id: ActionId, wasTerminal: bool)
    | Sending(key: F.FenceKey)

  datatype World = World(sys: P.Sys, fence: F.State, callers: map<nat, Caller>)

  /** States after which the runtime must not run again. */
  predicate Concluded(s: LifecycleState) {
    s.VerifiedSuccess? || s.RolledBack? || s.ExecutionFailed? || s.RollbackFailed?
  }

  /** The authorized request names the update plan it was presented with. */
  predicate NamesDigest(r: Request) { UpdatePlanDigest in r.metadata && r.metadata[UpdatePlanDigest] != "" }

  /** `_update_binding_for`: everything comes from durable state, the lease may
      be the retained, already released one, and `cid` is the first confirmation
      of the action, whatever its state. */
  function BindingFor(s: State, id: ActionId, cid: ConfirmationId): Result<F.FenceKey> {
    if id !in s.decisions then Err(StorageCorrupt)
    else if !NamesDigest(s.decisions[id].request) then Err(StaleEvidence)
    else if cid !in s.bindings || s.bindings[cid].actionId != id then Err(ConfirmationMismatch)
    else if id !in s.evidence || id !in s.leases then Err(StaleEvidence)
    else Ok(F.FenceKey(id, s.leases[id].fencingToken))
  }

  datatype Event =
    | Control(e: P.Event)
    | Serve(f: F.Event)
    | Enter(u: nat, id: ActionId)
    | Derive(u: nat, cid: ConfirmationId)
    | Send(u: nat, order: F.Order)
    | Vanish(u: nat)

  /** Only callers submit work to the executor; `Send` fixes the identity of
      the request and leaves the rest of it open. */
  function Step(w: World, e: Event): World {
    match e
    case Control(c) => w.(sys := P.Step(w.sys, c))
    case Serve(f) => if f.Receive? then w else w.(fence := F.Step(w.fence, f))
    case Enter(u, id) =>
      if id !in w.sys.st.actions then w
      else w.(callers := w.callers[u := Entered(id, Concluded(w.sys.st.actions[id].state))])
    case Derive(u, cid) =>
      if u !in w.callers || !w.callers[u].Entered? then w else
      var id, s := w.callers[u].id, w.sys.st;
      if id !in s.actions || s.actions[id].state != VerifiedSuccess || w.callers[u].wasTerminal
        || BindingFor(s, id, cid).Err?
      then w.(callers := w.callers - {u})
      else w.(callers := w.callers[u := Sending(BindingFor(s, id, cid).value)])
    case Send(u, order) =>
      if u !in w.callers || !w.callers[u].Sending? || !order.UpdateOrder? || order.key != w.callers[u].key then w
      else w.(fence := F.Step(w.fence, F.Receive(order)), callers := w.callers - {u})
    case Vanish(u) => w.(callers := w.callers - {u})
  }

  function Start(max: nat, t0: Time, config: F.Config): World {
    World(P.Start(max, t0), F.Initial(config), map[])
  }

  function Run(w: World, es: seq<Event>): World
    decreases |es|
  {
    if es == [] then w else Step(Run(w, es[..|es| - 1]), es[|es| - 1])
  }

  // ----- invariant ------------------------------------------------------------

  /** Every identity that travels belongs to a verified action and its only
      lease. */
  predicate KeyOk(s: State, k: F.FenceKey) {
    k.token == 1 && k.action in s.actions && s.actions[k.action].state == VerifiedSuccess
  }

  ghost predicate KeysOk(w: World) {
    && (forall u :: u in w.callers && w.callers[u].Sending? ==> KeyOk(w.sys.st, w.callers[u].key))
    && (forall n :: n in w.fence.live ==> KeyOk(w.sys.st, w.fence.live[n].order.key))
    && (forall k :: k in w.fence.rows ==> KeyOk(w.sys.st, k))
  }

  ghost predicate Inv(w: World) { R.SysInv(w.sys) && F.Inv(w.fence) && KeysOk(w) }

  /** A verified action never changes again. */
  lemma KeyStays(s: State, t: State, k: F.FenceKey)
    requires KeyOk(s, k) && I.Evolves(s, t)
    ensures KeyOk(t, k)
  {
    assert I.IdEvolves(s, t, k.action);
  }

  lemma ControlKeeps(w: World, e: P.Event)
    requires Inv(w)
    ensures Inv(Step(w, Control(e)))
  {
    R.StepKeeps(w.sys, e);
    var s, t := w.sys.st, P.Step(w.sys, e).st;
    forall k | KeyOk(s, k) ensures KeyOk(t, k) { KeyStays(s, t, k); }
  }

  /** The executor works only on identities it has been sent. */
  lemma ServeKeeps(s: State, f: F.State, e: F.Event)
    requires e.Receive? ==> KeyOk(s, e.order.key)
    requires forall n :: n in f.live ==> KeyOk(s, f.live[n].order.key)
    requires forall k :: k in f.rows ==> KeyOk(s, k)
    ensures var g := F.Step(f, e);
            && (forall n :: n in g.live ==> KeyOk(s, g.live[n].order.key))
            && (forall k :: k in g.rows ==> KeyOk(s, k))
  {
  }

  lemma DeriveIsOk(s: State, id: ActionId, cid: ConfirmationId)
    requires I.Inv(s) && id in s.actions && s.actions[id].state == VerifiedSuccess && BindingFor(s, id, cid).Ok?
    ensures KeyOk(s, BindingFor(s, id, cid).value)
  {
    assert I.ActionOk(s, id);
  }

  /** A caller that comes, goes, or learns a good key disturbs nothing else. */
  lemma CallersKeep(w: World, v: World)
    requires Inv(w) && v.sys == w.sys && v.fence == w.fence
    requires forall u :: u in v.callers && v.callers[u].Sending? ==> KeyOk(w.sys.st, v.callers[u].key)
    ensures Inv(v)
  {
  }

  lemma DeriveKeeps(w: World, u: nat, cid: ConfirmationId)
    requires Inv(w)
    ensures Inv(Step(w, Derive(u, cid)))
  {
    if u in w.callers && w.callers[u].Entered? { DerivedIsOk(w, u, cid); }
    CallersKeep(w, Step(w, Derive(u, cid)));
  }

  lemma DerivedIsOk(w: World, u: nat, cid: ConfirmationId)
    requires I.Inv(w.sys.st) && u in w.callers && w.callers[u].Entered?
    ensures var v := Step(w, Derive(u, cid));
            u in v.callers && v.callers[u].Sending? ==> KeyOk(w.sys.st, v.callers[u].key)
  {
    var id := w.callers[u].id;
    if id in w.sys.st.actions && w.sys.st.actions[id].state == VerifiedSuccess && BindingFor(w.sys.st, id, cid).Ok? {
      DeriveIsOk(w.sys.st, id, cid);
    }
  }

  lemma FenceKeeps(w: World, f: F.Event, callers: map<nat, Caller>)
    requires Inv(w) && (f.Receive? ==> KeyOk(w.sys.st, f.order.key))
    requires forall u :: u in callers ==> u in w.callers && callers[u] == w.callers[u]
    ensures Inv(w.(fence := F.Step(w.fence, f), callers := callers))
  {
    F.StepKeeps(w.fence, f);
    ServeKeeps(w.sys.st, w.fence, f);
  }

  lemma StepKeeps(w: World, e: Event)
    requires Inv(w)
    ensures Inv(Step(w, e))
  {
    match e
    case Control(c) => ControlKeeps(w, c);
    case Serve(f) => if !f.Receive? { FenceKeeps(w, f, w.callers); }
    case Send(u, order) => if Step(w, e) != w { FenceKeeps(w, F.Receive(order), w.callers - {u}); }
    case Derive(u, cid) => DeriveKeeps(w, u, cid);
    case _ => CallersKeep(w, Step(w, e));
  }

  lemma {:induction false} RunKeeps(w: World, es: seq<Event>)
    requires Inv(w)
    ensures Inv(Run(w, es))
    decreases |es|
  {
    if es == [] { return; }
    RunKeeps(w, es[..|es| - 1]);
    StepKeeps(Run(w, es[..|es| - 1]), es[|es| - 1]);
  }

  // ----- the end-to-end theorem -------------------------------------------------

  /** For every interleaving of any number of callers, crashes and store
      failures, the engine is invoked at most once for an action, and only for
      an action that is verified and whose requested content is durable as the
      revision after the authorized one. */
  lemma EngineRunsAtMostOnce(max: nat, t0: Time, config: F.Config, es: seq<Event>)
    ensures
      var w := Run(Start(max, t0, config), es);
      && (forall i, j :: 0 <= i < j < |w.fence.calls| ==> w.fence.calls[i].key.action != w.fence.calls[j].key.action)
      && (forall i :: 0 <= i < |w.fence.calls| ==>
            var s, id := w.sys.st, w.fence.calls[i].key.action;
            && id in s.actions && id in s.decisions && s.actions[id].state == VerifiedSuccess
            && I.Landed(s, s.actions[id], s.decisions[id].Mutation()))
  {
    R.InitialOk(max, t0);
    var w := Run(Start(max, t0, config), es);
    RunKeeps(Start(max, t0, config), es);
    forall i | 0 <= i < |w.fence.calls| ensures KeyOk(w.sys.st, w.fence.calls[i].key) {}
    forall i | 0 <= i < |w.fence.calls|
      ensures I.ActionOk(w.sys.st, w.fence.calls[i].key.action)
              && w.sys.st.actions[w.fence.calls[i].key.action].operation == UpdateProjectPlan {
      assert I.ActionOk(w.sys.st, w.fence.calls[i].key.action);
    }
    forall i, j | 0 <= i < j < |w.fence.calls| ensures w.fence.calls[i].key.action != w.fence.calls[j].key.action {
      assert w.fence.calls[i].key != w.fence.calls[j].key;
    }
  }

  // ----- who reaches the runtime call ---------------------------------------------

  /** None of the events is about caller `u`. */
  predicate Untouched(es: seq<Event>, u: nat) {
    forall i :: 0 <= i < |es| ==>
      !((es[i].Enter? || es[i].Derive? || es[i].Send? || es[i].Vanish?) && es[i].u == u)
  }

  lemma {:induction false} CallerWaits(w: World, es: seq<Event>, u: nat)
    requires Untouched(es, u) && u in w.callers
    ensures u in Run(w, es).callers && Run(w, es).callers[u] == w.callers[u]
    decreases |es|
  {
    if es != [] {
      var before := es[..|es| - 1];
      assert forall i :: 0 <= i < |before| ==> before[i] == es[i];
      CallerWaits(w, before, u);
    }
  }

  lemma StepEvolves(w: World, e: Event)
    requires Inv(w)
    ensures I.Evolves(w.sys.st, Step(w, e).sys.st)
  {
    if e.Control? { R.StepKeeps(w.sys, e.e); } else { I.EvolvesRefl(w.sys.st); }
  }

  lemma {:induction false} RunEvolves(w: World, es: seq<Event>)
    requires Inv(w)
    ensures Inv(Run(w, es)) && I.Evolves(w.sys.st, Run(w, es).sys.st)
    decreases |es|
  {
    RunKeeps(w, es);
    if es == [] { I.EvolvesRefl(w.sys.st); return; }
    var v := Run(w, es[..|es| - 1]);
    RunEvolves(w, es[..|es| - 1]);
    StepEvolves(v, es[|es| - 1]);
    I.EvolvesTrans(w.sys.st, v.sys.st, Run(w, es).sys.st);
  }

  /** What a caller finds when it derives its binding. */
  predicate Bindable(s: State, id: ActionId, cid: ConfirmationId) {
    && id in s.decisions && NamesDigest(s.decisions[id].request)
    && cid in s.bindings && s.bindings[cid].actionId == id && id in s.evidence
  }

  lemma ConcludedIsVerified(s: State, id: ActionId)
    requires I.Inv(s) && id in s.actions
    ensures Concluded(s.actions[id].state) <==> s.actions[id].state == VerifiedSuccess
  {
    assert I.ActionOk(s, id);
  }

  /** A verified action always has its one lease. */
  lemma VerifiedHasLease(s: State, id: ActionId, cid: ConfirmationId)
    requires I.Inv(s) && id in s.actions && s.actions[id].state == VerifiedSuccess
    ensures BindingFor(s, id, cid).Ok? <==> Bindable(s, id, cid)
    ensures BindingFor(s, id, cid).Ok? ==> BindingFor(s, id, cid).value == F.FenceKey(id, 1)
  {
    assert I.ActionOk(s, id);
  }

  /** What deriving the binding does to its caller. */
  lemma DeriveIs(w: World, u: nat, id: ActionId, wasTerminal: bool, cid: ConfirmationId)
    requires u in w.callers && w.callers[u] == Entered(id, wasTerminal) && id in w.sys.st.actions
    ensures var v, s := Step(w, Derive(u, cid)), w.sys.st;
            if s.actions[id].state == VerifiedSuccess && !wasTerminal && BindingFor(s, id, cid).Ok?
            then u in v.callers && v.callers[u] == Sending(BindingFor(s, id, cid).value)
            else u !in v.callers
  {
  }

  lemma DeriveDecides(a: State, b: World, u: nat, id: ActionId, cid: ConfirmationId)
    requires I.Inv(a) && I.Inv(b.sys.st) && id in a.actions && id in b.sys.st.actions
    requires u in b.callers && b.callers[u] == Entered(id, Concluded(a.actions[id].state))
    ensures var v := Step(b, Derive(u, cid));
            && (u in v.callers <==>
                  && a.actions[id].state != VerifiedSuccess && b.sys.st.actions[id].state == VerifiedSuccess
                  && Bindable(b.sys.st, id, cid))
            && (u in v.callers ==> v.callers[u] == Sending(F.FenceKey(id, 1)))
  {
    ConcludedIsVerified(a, id);
    DeriveIs(b, u, id, Concluded(a.actions[id].state), cid);
    if b.sys.st.actions[id].state == VerifiedSuccess { VerifiedHasLease(b.sys.st, id, cid); }
  }

  /** Over all runs: a caller that entered at some point gets to the runtime call
      if and only if the action was verified after it entered and before it
      derived its binding, and the digest, the confirmation and the evidence are
      on record; it then carries fencing token 1.  How many callers do so is not
      bounded by anything. */
  lemma CallerSendsExactly(max: nat, t0: Time, config: F.Config, es: seq<Event>, u: nat, id: ActionId,
                           fs: seq<Event>, cid: ConfirmationId)
    requires id in Run(Start(max, t0, config), es).sys.st.actions && Untouched(fs, u)
    ensures
      var a := Run(Start(max, t0, config), es);
      var b := Run(Step(a, Enter(u, id)), fs);
      var v := Step(b, Derive(u, cid));
      && id in b.sys.st.actions
      && (u in v.callers <==>
            && a.sys.st.actions[id].state != VerifiedSuccess && b.sys.st.actions[id].state == VerifiedSuccess
            && Bindable(b.sys.st, id, cid))
      && (u in v.callers ==> v.callers[u] == Sending(F.FenceKey(id, 1)))
  {
    R.InitialOk(max, t0);
    var a := Run(Start(max, t0, config), es);
    RunKeeps(Start(max, t0, config), es);
    SendsFrom(a, u, id, fs, cid);
  }

  lemma EnterIs(a: World, u: nat, id: ActionId)
    requires Inv(a) && id in a.sys.st.actions
    ensures var e := Step(a, Enter(u, id));
            && Inv(e) && e.sys == a.sys
            && u in e.callers && e.callers[u] == Entered(id, Concluded(a.sys.st.actions[id].state))
  {
    StepKeeps(a, Enter(u, id));
  }

  /** A caller that nobody disturbs still knows what it read when it entered. */
  lemma EnteredWaits(a: World, u: nat, id: ActionId, fs: seq<Event>)
    requires Inv(a) && id in a.sys.st.actions && Untouched(fs, u)
    ensures var b := Run(Step(a, Enter(u, id)), fs);
            && I.Inv(b.sys.st) && id in b.sys.st.actions
            && u in b.callers && b.callers[u] == Entered(id, Concluded(a.sys.st.actions[id].state))
  {
    var e := Step(a, Enter(u, id));
    EnterIs(a, u, id);
    RunEvolves(e, fs);
    CallerWaits(e, fs, u);
    assert I.IdEvolves(a.sys.st, Run(e, fs).sys.st, id);
  }

  lemma SendsFrom(a: World, u: nat, id: ActionId, fs: seq<Event>, cid: ConfirmationId)
    requires Inv(a) && id in a.sys.st.actions && Untouched(fs, u)
    ensures
      var b := Run(Step(a, Enter(u, id)), fs);
      var v := Step(b, Derive(u, cid));
      && id in b.sys.st.actions
      && (u in v.callers <==>
            && a.sys.st.actions[id].state != VerifiedSuccess && b.sys.st.actions[id].state == VerifiedSuccess
            && Bindable(b.sys.st, id, cid))
      && (u in v.callers ==> v.callers[u] == Sending(F.FenceKey(id, 1)))
  {
    EnteredWaits(a, u, id, fs);
    DeriveDecides(a.sys.st, Run(Step(a, Enter(u, id)), fs), u, id, cid);
  }
}
