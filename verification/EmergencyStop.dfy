/** The kill switch over whole runs: staging is open if and only if the last
    change that was carried out opened it, and while it is not, nothing is
    authorized, captured or let through the gate. */
module EmergencyStop {
  import opened Types
  import opened Lifecycle
  import opened Plans
  import opened KillSwitch
  import opened Store
  import opened Gate
  import opened Executor
  import opened Service
  import opened Protocol
  import opened Reachable
  import opened Conditions
  import opened Footprint
  import opened Theorems

  /** In every run staging is open if and only if the last change of its switch
      that was carried out was a disengage. */
  lemma StagingOpenExactly(max: nat, t0: Time, es: seq<Event>)
    ensures Permits(After(max, t0, es).st.switches, Staging) <==> LastOpens(Changes(es), t0)
    ensures !Permits(After(max, t0, es).st.switches, Production)
  {
    RunSwitches(Start(max, t0), es);
    StagingPermitsExactly(t0, Changes(es));
  }

  lemma {:induction false} ChangesSplit(es: seq<Event>, fs: seq<Event>)
    ensures Changes(es + fs) == Changes(es) + Changes(fs)
    decreases |fs|
  {
    if fs == [] {
      assert es + fs == es && Changes(es) + [] == Changes(es);
    } else {
      assert (es + fs)[..|es + fs| - 1] == es + fs[..|fs| - 1];
      ChangesSplit(es, fs[..|fs| - 1]);
    }
  }

  /** No change in the list opens staging. */
  predicate NeverOpens(cs: seq<Change>, since: Time) {
    forall i :: 0 <= i < |cs| ==> !(Carried(cs[i], since) && !cs[i].engage)
  }

  lemma OpenedBefore(cs: seq<Change>, more: seq<Change>, since: Time)
    requires NeverOpens(more, since)
    ensures LastOpens(cs + more, since) ==> LastOpens(cs, since)
  {
    var all := cs + more;
    if i: nat :| IsLast(all, since, i) && !all[i].engage {
      assert forall j :: 0 <= j < |more| ==> all[|cs| + j] == more[j];
      assert forall j :: i < j < |cs| ==> all[j] == cs[j];
      assert IsLast(cs, since, i);
    }
  }

  /** Once staging is shut it stays shut until a change opens it. */
  lemma ShutUntilOpened(max: nat, t0: Time, es: seq<Event>, fs: seq<Event>)
    requires !LastOpens(Changes(es), t0) && NeverOpens(Changes(fs), t0)
    ensures Shut(Run(After(max, t0, es), fs).st)
  {
    RunSplits(Start(max, t0), es, fs);
    ChangesSplit(es, fs);
    OpenedBefore(Changes(es), Changes(fs), t0);
    StagingOpenExactly(max, t0, es + fs);
  }

  predicate Shut(s: State) { !Permits(s.switches, Staging) && !Permits(s.switches, Production) }

  // ----- what a shut switch refuses ------------------------------------------------

  lemma ShutRefusesCalls(s: State, k: Call, refs: Option<Refs>, id: ActionId, version: nat, seen: ProjectPlan,
                         sid: SnapshotId, now: Time)
    requires Shut(s)
    ensures Authorize(s, k, refs) == Reply(s, Err(UnavailableTarget))
    ensures Capture(s, id, version, seen, sid, now).result.Err? && Capture(s, id, version, seen, sid, now).state == s
  {
    assert !Permits(s.switches, k.request.environment);
    if id in s.actions { assert !Permits(s.switches, s.actions[id].environment); }
  }

  lemma AllowedIsOpen(s: State, c: Contract, now: Time)
    ensures Evaluate(s, c, now) == GateAllowed ==> Permits(s.switches, Staging)
  {
    if Evaluate(s, c, now) == GateAllowed { AllowedMeans(s, c, now); }
  }

  lemma ShutRefusesContracts(s: State, c: Contract, rid: ActionId, oid: ActionId, now: Time)
    requires Shut(s)
    ensures Evaluate(s, c, now) != GateAllowed && ValidateWorld(s, c, now).Err? && RollbackChecks(s, rid, oid, now).Err?
  {
    assert !Permits(s.switches, c.environment);
    if rid in s.actions { assert !Permits(s.switches, s.actions[rid].environment); }
    AllowedIsOpen(s, c, now);
  }

  /** Events that would prepare a mutation. */
  predicate Preparing(e: Event) { e.AuthorizeRequest? || e.RequestRollback? || e.CapturePlan? || e.StartRollback? }

  lemma ShutIgnores(x: Sys, e: Event)
    requires Preparing(e) && Shut(x.st)
    ensures Step(x, e) == x
  {
    match e
    case AuthorizeRequest(call, seen) =>
      assert !Permits(x.st.switches, call.request.environment);
    case RequestRollback(call, original, planned, seen) =>
      if original in x.st.actions { assert !Permits(x.st.switches, x.st.actions[original].environment); }
    case CapturePlan(id, version, seen, sid, now) =>
      if id in x.st.actions { assert !Permits(x.st.switches, x.st.actions[id].environment); }
    case StartRollback(t, rid, oid, now) =>
      if rid in x.st.actions { assert !Permits(x.st.switches, x.st.actions[rid].environment); }
  }

  /** From an emergency stop until a later disengage, at every point of every
      run: no request is authorized, no rollback asked for or started, no
      snapshot taken, and neither the gate nor the executor's first check lets
      anything through. */
  lemma StopHolds(max: nat, t0: Time, es: seq<Event>, fs: seq<Event>, k: Call, refs: Option<Refs>, c: Contract,
                  e: Event, now: Time)
    requires !LastOpens(Changes(es), t0) && NeverOpens(Changes(fs), t0)
    ensures var y := Run(After(max, t0, es), fs);
            && Authorize(y.st, k, refs) == Reply(y.st, Err(UnavailableTarget))
            && Evaluate(y.st, c, now) != GateAllowed && ValidateWorld(y.st, c, now).Err?
            && (Preparing(e) ==> Step(y, e) == y)
  {
    ShutUntilOpened(max, t0, es, fs);
    var y := Run(After(max, t0, es), fs);
    ShutRefusesCalls(y.st, k, refs, 0, 0, ProjectPlan(0, Staging, 0, "", "", 0, 0, false), 0, now);
    ShutRefusesContracts(y.st, c, 0, 0, now);
    if Preparing(e) { ShutIgnores(y, e); }
  }

  // ----- what can still be written -----------------------------------------------------

  /** The caller has passed the executor's first check and not finished. */
  predicate UnderWay(pc: Pc) {
    pc.ExChecked? || pc.ExBound? || pc.ExGated? || pc.ExReady? || pc.ExBegun? || pc.ExRunning?
  }

  lemma ShutAdmitsNobody(s: State, pc: Pc)
    requires Shut(s)
    ensures var m := StepExecute(s, pc); UnderWay(m.pc) ==> UnderWay(pc) && m.pc.c == pc.c
  {
    if pc.ExBuilt? { assert !Permits(s.switches, pc.c.environment); }
  }

  lemma OthersAreNotUnderWay(s: State, pc: Pc, cid: ConfirmationId, lid: LeaseId)
    ensures !UnderWay(pc) ==> !UnderWay(StepReconcile(s, pc).pc) && !UnderWay(StepRollback(s, pc, cid, lid).pc)
  {
  }

  /** While staging is shut nobody gets under way. */
  lemma NobodyGetsUnderWay(x: Sys, e: Event, t: nat)
    requires Shut(x.st)
    requires t in Step(x, e).threads && UnderWay(Step(x, e).threads[t])
    ensures t in x.threads && UnderWay(x.threads[t]) && x.threads[t].c == Step(x, e).threads[t].c
  {
    if e.Continue? && e.t == t {
      ShutAdmitsNobody(x.st, Pc0(x, t));
      OthersAreNotUnderWay(x.st, Pc0(x, t), e.cid, e.leaseId);
    }
  }

  /** Somebody was executing this action. */
  ghost predicate Executing(x: Sys, id: ActionId) {
    exists t :: t in x.threads && UnderWay(x.threads[t]) && x.threads[t].c.actionId == id
  }

  /** The step writes for this action because its caller has come to the write. */
  predicate Writes(x: Sys, e: Event, id: ActionId) {
    e.Continue? && Pc0(x, e.t).ExRunning? && Pc0(x, e.t).c.actionId == id
  }

  lemma CallersWrite(x: Sys, e: Event)
    requires e.Continue? && forall u :: u in x.threads ==> !Restoring(x.threads[u])
    ensures var s, m := x.st, StepCaller(x.st, Pc0(x, e.t), e.cid, e.leaseId).state;
            forall i :: |s.log| <= i < |m.log| ==> m.log[i].author.By? && Writes(x, e, m.log[i].author.action)
  {
    CallerIsModest(x.st, Pc0(x, e.t), e.cid, e.leaseId);
  }

  /** A step that writes a plan for an action is one of a caller at its write. */
  lemma WritersAreRunning(x: Sys, e: Event, i: nat)
    requires SysInv(x)
    ensures var s, t := x.st, Step(x, e).st;
            |s.log| <= i < |t.log| && t.log[i].author.By? ==> Writes(x, e, t.log[i].author.action)
  {
    if e.Continue? {
      NobodyRestores(x);
      CallersWrite(x, e);
    } else if e.CreateTarget? {
      CreateTouchesPlans(x.st, e);
    } else {
      OthersWriteNothing(x, e);
    }
  }

  lemma WritersExecute(x: Sys, e: Event, id: ActionId)
    requires Writes(x, e, id)
    ensures Executing(x, id)
  {
    assert e.t in x.threads && UnderWay(x.threads[e.t]) && x.threads[e.t].c.actionId == id;
  }

  lemma OthersWriteNothing(x: Sys, e: Event)
    requires SysInv(x) && !e.Continue? && !e.CreateTarget?
    ensures Step(x, e).st.log == x.st.log
  {
    if Routine(e) { RoutineIsModest(x.st, e); }
    else if e.AuthorizeRequest? {
      AuthorizeRegisters(x.st, e.call.(seen := Observed(x.st, e.call.request.target, e.seen)), None);
    } else if e.RequestRollback? { RollbackWritesNothing(x, e); }
    else if e.AskConfirmation? { AskingTouchesBindings(x.st, e.id, e.pending, e.now); }
    else if e.ConfirmAction? { ConfirmingWritesNothing(x.st, e.cid, e.version, e.actor, e.now); }
    else if e.CapturePlan? {
      var p := StaleRead(x.st, e.seen);
      if p.Some? { CapturesExactly(x.st, e.id, e.version, p.value, e.sid, e.now); }
    }
  }

  lemma ConfirmingWritesNothing(s: State, cid: ConfirmationId, version: nat, actor: Subject, now: Time)
    ensures Confirm(s, cid, version, actor, now).state.log == s.log
  {
    ConfirmingIs(s, cid, version, actor, now);
    if cid in s.bindings && BuildConfirmation(s.bindings[cid], actor, now).Ok? {
      var b := BuildConfirmation(s.bindings[cid], actor, now).value;
      AdvanceKeepsPlans(PutBinding(s, b), b.actionId, version, Confirmed, actor, now);
    }
  }

  lemma RollbackWritesNothing(x: Sys, e: Event)
    requires SysInv(x) && e.RequestRollback?
    ensures Step(x, e).st.log == x.st.log
  {
    if Step(x, e).st != x.st {
      var o, snap := x.st.actions[e.original], SnapshotFor(x.st, e.original);
      AuthorizeRegisters(x.st, e.call.(request := RollbackRequest(o), seen := Observed(x.st, o.target, e.seen)),
                         Some(Refs(e.original, snap.value.id)));
    }
  }

  lemma ExecutingBefore(x: Sys, e: Event, id: ActionId)
    requires Shut(x.st) && Executing(Step(x, e), id)
    ensures Executing(x, id)
  {
    var t :| t in Step(x, e).threads && UnderWay(Step(x, e).threads[t]) && Step(x, e).threads[t].c.actionId == id;
    NobodyGetsUnderWay(x, e, t);
  }

  /** Staging is shut at every point of the continuation. */
  ghost predicate ShutThroughout(x: Sys, fs: seq<Event>) {
    forall n :: 0 <= n <= |fs| ==> Shut(Run(x, fs[..n]).st)
  }

  /** Whatever is executing, or has written, at the end of the stop was executing
      when it began. */
  lemma {:induction false} StoppedFrom(x: Sys, fs: seq<Event>, id: ActionId)
    requires SysInv(x) && ShutThroughout(x, fs)
    ensures Executing(Run(x, fs), id) ==> Executing(x, id)
    ensures |x.st.log| <= |Run(x, fs).st.log|
    ensures forall i :: |x.st.log| <= i < |Run(x, fs).st.log| && Run(x, fs).st.log[i].author.By? ==>
                          Executing(x, Run(x, fs).st.log[i].author.action)
    decreases |fs|
  {
    if fs == [] { return; }
    var before, e := fs[..|fs| - 1], fs[|fs| - 1];
    assert forall n :: 0 <= n <= |before| ==> before[..n] == fs[..n];
    assert fs[..|before|] == before;
    var y := Run(x, before);
    StoppedFrom(x, before, id);
    RunKeeps(x, before);
    StepKeeps(y, e);
    if Executing(Run(x, fs), id) { ExecutingBefore(y, e, id); }
    forall i | |x.st.log| <= i < |Run(x, fs).st.log| && Run(x, fs).st.log[i].author.By?
      ensures Executing(x, Run(x, fs).st.log[i].author.action) {
      if i < |y.st.log| {
        assert Run(x, fs).st.log[i] == y.st.log[i];
      } else {
        WritersAreRunning(y, e, i);
        WritersExecute(y, e, Run(x, fs).st.log[i].author.action);
        StoppedFrom(x, before, Run(x, fs).st.log[i].author.action);
      }
    }
  }

  /** An emergency stop lets only those finish who were already executing: until a
      later disengage, every plan write by an action is by one some caller was
      executing when the stop took effect. */
  lemma StopLetsOnlyFinish(max: nat, t0: Time, es: seq<Event>, fs: seq<Event>, i: nat)
    requires !LastOpens(Changes(es), t0) && NeverOpens(Changes(fs), t0)
    requires var x, y := After(max, t0, es), Run(After(max, t0, es), fs);
             |x.st.log| <= i < |y.st.log| && y.st.log[i].author.By?
    ensures var x, y := After(max, t0, es), Run(After(max, t0, es), fs); Executing(x, y.st.log[i].author.action)
  {
    var x := After(max, t0, es);
    Past(max, t0, es);
    RunStaysShut(max, t0, es, fs);
    StoppedFrom(x, fs, Run(x, fs).st.log[i].author.action);
  }

  lemma RunStaysShut(max: nat, t0: Time, es: seq<Event>, fs: seq<Event>)
    requires !LastOpens(Changes(es), t0) && NeverOpens(Changes(fs), t0)
    ensures ShutThroughout(After(max, t0, es), fs)
  {
    forall n | 0 <= n <= |fs| ensures Shut(Run(After(max, t0, es), fs[..n]).st) {
      assert fs[..n] + fs[n..] == fs;
      ChangesSplit(fs[..n], fs[n..]);
      PrefixNeverOpens(Changes(fs), Changes(fs[..n]), t0);
      ShutUntilOpened(max, t0, es, fs[..n]);
    }
  }

  lemma PrefixNeverOpens(cs: seq<Change>, some: seq<Change>, since: Time)
    requires NeverOpens(cs, since) && some <= cs
    ensures NeverOpens(some, since)
  {
  }
}
