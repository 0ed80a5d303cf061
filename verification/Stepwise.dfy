/** The executor's verbs as one call and as a caller's sequence of steps agree:
    a caller that nobody interrupts leaves exactly the state of the whole call.
    This ties the interleaved protocol to `Executor`. */
module Stepwise {
  import opened Types
  import opened Lifecycle
  import opened Plans
  import opened Store
  import opened Gate
  import opened Executor
  import opened Protocol

  /** What the caller brings to every step. */
  datatype Given = Given(cid: ConfirmationId, lid: LeaseId)

  predicate Link(g: Given, a: Move, b: Move) { StepCaller(a.state, a.pc, g.cid, g.lid) == b }

  ghost predicate IsPath(g: Given, ms: seq<Move>) {
    forall i {:trigger Link(g, ms[i], ms[i + 1])} :: 0 <= i < |ms| - 1 ==> Link(g, ms[i], ms[i + 1])
  }

  /** Uninterrupted steps of one caller lead from `a` to `b`. */
  ghost predicate Leads(g: Given, a: Move, b: Move) {
    exists ms :: |ms| > 0 && IsPath(g, ms) && ms[0] == a && ms[|ms| - 1] == b
  }

  lemma Here(g: Given, a: Move)
    ensures Leads(g, a, a)
  {
    assert IsPath(g, [a]);
  }

  lemma Then(g: Given, a: Move, b: Move, c: Move)
    requires Leads(g, a, b) && Leads(g, b, c)
    ensures Leads(g, a, c)
  {
    var ms :| |ms| > 0 && IsPath(g, ms) && ms[0] == a && ms[|ms| - 1] == b;
    var ns :| |ns| > 0 && IsPath(g, ns) && ns[0] == b && ns[|ns| - 1] == c;
    var n := |ms| - 1;
    var all := ms[..n] + ns;
    forall i | 0 <= i < |all| - 1 ensures Link(g, all[i], all[i + 1]) {
      if i < n {
        assert all[i] == ms[i] && all[i + 1] == ms[i + 1];
        assert Link(g, ms[i], ms[i + 1]);
      } else {
        var k := i - n;
        assert all[i] == ns[k] && all[i + 1] == ns[k + 1];
        assert Link(g, ns[k], ns[k + 1]);
      }
    }
    assert IsPath(g, all);
  }

  /** One step, and on from there. */
  lemma Step(g: Given, a: Move, b: Move, c: Move)
    requires Link(g, a, b) && Leads(g, b, c)
    ensures Leads(g, a, c)
  {
    assert IsPath(g, [a, b]) by { assert [a, b][0] == a && [a, b][1] == b; }
    Then(g, a, b, c);
  }

  lemma Last(g: Given, a: Move, b: Move)
    requires Link(g, a, b)
    ensures Leads(g, a, b)
  {
    Here(g, b);
    Step(g, a, b, b);
  }

  // ----- execute ----------------------------------------------------------

  lemma RecordStep(g: Given, s: State, c: Contract, now: Time, version: nat, success: bool)
    ensures var r := RecordVerification(s, c.actionId, version, success, now);
            Leads(g, Move(s, ExObserved(c, now, version, success)),
                  Move(r.state, if r.result.Err? then Idle else ExRecorded(c)))
  {
    var r := RecordVerification(s, c.actionId, version, success, now);
    Last(g, Move(s, ExObserved(c, now, version, success)),
         Move(r.state, if r.result.Err? then Idle else ExRecorded(c)));
  }

  lemma ReleaseStep(g: Given, s: State, c: Contract)
    ensures Leads(g, Move(s, ExRecorded(c)), Move(ReleaseLease(s, c.actionId, c.leaseId, c.fencingToken).state, Idle))
  {
    Last(g, Move(s, ExRecorded(c)), Move(ReleaseLease(s, c.actionId, c.leaseId, c.fencingToken).state, Idle));
  }

  lemma ObserveStep(g: Given, s: State, c: Contract, now: Time, version: nat)
    ensures Leads(g, Move(s, ExMutated(c, now, version)),
                  Move(s, if c.target !in s.plans then Idle
                          else ExObserved(c, now, version, ReadBack(c, s.plans[c.target]))))
  {
    Last(g, Move(s, ExMutated(c, now, version)),
         Move(s, if c.target !in s.plans then Idle
                          else ExObserved(c, now, version, ReadBack(c, s.plans[c.target]))));
  }

  lemma ConcludeSteps(g: Given, s: State, c: Contract, now: Time, version: nat)
    ensures Leads(g, Move(s, ExMutated(c, now, version)), Move(Conclude(s, c, version, now).state, Idle))
  {
    var a := Move(s, ExMutated(c, now, version));
    ObserveStep(g, s, c, now, version);
    if c.target !in s.plans { return; }
    var success := ReadBack(c, s.plans[c.target]);
    var r := RecordVerification(s, c.actionId, version, success, now);
    RecordStep(g, s, c, now, version, success);
    var b := Move(r.state, if r.result.Err? then Idle else ExRecorded(c));
    Then(g, a, Move(s, ExObserved(c, now, version, success)), b);
    if r.result.Ok? {
      ReleaseStep(g, r.state, c);
      Then(g, a, b, Move(ReleaseLease(r.state, c.actionId, c.leaseId, c.fencingToken).state, Idle));
    }
  }

  lemma WriteStep(g: Given, s: State, c: Contract, now: Time, version: nat)
    ensures var r := MutatePlan(s, c.actionId, version, c.expectedRevision, c.fields, now);
            Leads(g, Move(s, ExRunning(c, now, version)),
                  Move(r.state, if r.result.Err? then Idle else ExMutated(c, now, r.result.value.version)))
  {
    var r := MutatePlan(s, c.actionId, version, c.expectedRevision, c.fields, now);
    Last(g, Move(s, ExRunning(c, now, version)),
         Move(r.state, if r.result.Err? then Idle else ExMutated(c, now, r.result.value.version)));
  }

  /** The write, when execution is under way, and what follows it. */
  lemma RunSteps(g: Given, s: State, c: Contract, now: Time, version: nat)
    ensures var r := MutatePlan(s, c.actionId, version, c.expectedRevision, c.fields, now);
            Leads(g, Move(s, ExRunning(c, now, version)),
                  Move(if r.result.Err? then r.state else Conclude(r.state, c, r.result.value.version, now).state,
                       Idle))
  {
    WriteStep(g, s, c, now, version);
    var r := MutatePlan(s, c.actionId, version, c.expectedRevision, c.fields, now);
    if r.result.Ok? {
      var v := r.result.value.version;
      ConcludeSteps(g, r.state, c, now, v);
      Then(g, Move(s, ExRunning(c, now, version)), Move(r.state, ExMutated(c, now, v)),
           Move(Conclude(r.state, c, v, now).state, Idle));
    }
  }

  lemma FinishSteps(g: Given, s: State, c: Contract, now: Time, version: nat)
    ensures Leads(g, Move(s, ExBegun(c, now, version)), Move(Finish(s, c, version, now).state, Idle))
  {
    var a := Move(s, ExBegun(c, now, version));
    var end := Move(Finish(s, c, version, now).state, Idle);
    if c.actionId !in s.actions { Last(g, a, Move(s, Idle)); return; }
    var act := s.actions[c.actionId];
    if act.state == Running {
      RunSteps(g, s, c, now, version);
      Step(g, a, Move(s, ExRunning(c, now, version)), end);
    } else if act.state == ExecutedPendingVerification {
      ConcludeSteps(g, s, c, now, act.version);
      Step(g, a, Move(s, ExMutated(c, now, act.version)), end);
    } else {
      Last(g, a, Move(s, Idle));
    }
  }

  /** From the bound evidence to the start of execution, or to a refusal. */
  lemma CheckSteps(g: Given, s: State, c: Contract, now: Time, seen: LifecycleState, version: nat)
    ensures var refused := GateFirst(s, c, seen, now) != GateAllowed || Preconditions(s, c, seen, now).Err?;
            Leads(g, Move(s, ExBound(c, now, seen, version)),
                  Move(s, if refused then Idle else ExReady(c, now, seen, version)))
  {
    var a, b := Move(s, ExBound(c, now, seen, version)), Move(s, ExGated(c, now, seen, version));
    var d := Move(s, ExReady(c, now, seen, version));
    if GateFirst(s, c, seen, now) != GateAllowed { Last(g, a, Move(s, Idle)); return; }
    Last(g, a, b);
    Last(g, b, if Preconditions(s, c, seen, now).Err? then Move(s, Idle) else d);
    Then(g, a, b, if Preconditions(s, c, seen, now).Err? then Move(s, Idle) else d);
  }

  lemma BeginSteps(g: Given, s: State, c: Contract, now: Time, seen: LifecycleState, version: nat)
    ensures var r := BeginExecution(s, c.actionId, version, c.confirmationId, now);
            Leads(g, Move(s, ExReady(c, now, seen, version)),
                  if seen != Leased then Move(s, ExBegun(c, now, version))
                  else Move(r.state, if r.result.Err? then Idle else ExBegun(c, now, r.result.value.version)))
  {
    Last(g, Move(s, ExReady(c, now, seen, version)), StepExecute(s, ExReady(c, now, seen, version)));
  }

  lemma BindSteps(g: Given, s: State, c: Contract, now: Time, seen: LifecycleState, version: nat)
    ensures var r := BindFirst(s, c, seen);
            Leads(g, Move(s, ExChecked(c, now, seen, version)),
                  Move(r.state, if r.result.Err? then Idle else ExBound(c, now, seen, version)))
  {
    Last(g, Move(s, ExChecked(c, now, seen, version)), StepExecute(s, ExChecked(c, now, seen, version)));
  }

  /** Everything before the mutation. */
  lemma PrepareSteps(g: Given, s: State, c: Contract, now: Time)
    ensures var r := Prepare(s, c, now);
            Leads(g, Move(s, ExBuilt(c, now)),
                  Move(r.state, if r.result.Ok? && r.result.value.Some? then ExBegun(c, now, r.result.value.value)
                       else Idle))
  {
    var w := ValidateWorld(s, c, now);
    var a := Move(s, ExBuilt(c, now));
    if w.Err? { Last(g, a, Move(s, Idle)); return; }
    var seen, version := w.value.state, w.value.version;
    var b := Move(s, ExChecked(c, now, seen, version));
    Last(g, a, b);
    BindSteps(g, s, c, now, seen, version);
    var u := BindFirst(s, c, seen);
    if u.result.Err? { Then(g, a, b, Move(u.state, Idle)); return; }
    var d := Move(u.state, ExBound(c, now, seen, version));
    Then(g, a, b, d);
    PrepareRest(g, s, c, now, a, d);
  }

  /** The second half of the preparation. */
  lemma PrepareRest(g: Given, s: State, c: Contract, now: Time, a: Move, d: Move)
    requires ValidateWorld(s, c, now).Ok?
    requires var seen := ValidateWorld(s, c, now).value.state;
             && BindFirst(s, c, seen).result.Ok?
             && d == Move(BindFirst(s, c, seen).state, ExBound(c, now, seen, ValidateWorld(s, c, now).value.version))
    requires Leads(g, a, d)
    ensures var r := Prepare(s, c, now);
            Leads(g, a, Move(r.state,
                             if r.result.Ok? && r.result.value.Some? then ExBegun(c, now, r.result.value.value)
                             else Idle))
  {
    var seen, version, u := d.pc.seen, d.pc.version, d.state;
    CheckSteps(g, u, c, now, seen, version);
    if GateFirst(u, c, seen, now) != GateAllowed || Preconditions(u, c, seen, now).Err? {
      Then(g, a, d, Move(u, Idle));
      return;
    }
    var e := Move(u, ExReady(c, now, seen, version));
    Then(g, a, d, e);
    BeginSteps(g, u, c, now, seen, version);
    var r := BeginExecution(u, c.actionId, version, c.confirmationId, now);
    Then(g, a, e, if seen != Leased then Move(u, ExBegun(c, now, version))
                  else Move(r.state, if r.result.Err? then Idle else ExBegun(c, now, r.result.value.version)));
  }

  /** `Executor.execute` is what an uninterrupted caller does step by step. */
  lemma ExecuteIsItsSteps(g: Given, s: State, c: Contract, now: Time)
    ensures Leads(g, Move(s, ExBuilt(c, now)), Move(Execute(s, c, now).state, Idle))
  {
    PrepareSteps(g, s, c, now);
    var r := Prepare(s, c, now);
    if r.result.Ok? && r.result.value.Some? {
      var v := r.result.value.value;
      FinishSteps(g, r.state, c, now, v);
      Then(g, Move(s, ExBuilt(c, now)), Move(r.state, ExBegun(c, now, v)),
           Move(Finish(r.state, c, v, now).state, Idle));
    }
  }

  // ----- reconcile --------------------------------------------------------

  lemma ReconcileIsItsSteps(g: Given, s: State, c: Contract, now: Time, reply: Option<ReceiptReply>)
    ensures Leads(g, Move(s, RcBuilt(c, now)), Move(Reconcile(s, c, now, reply).state, Idle))
  {
    var a := Move(s, RcBuilt(c, now));
    var b := StepReconcile(s, a.pc);
    if b.pc == Idle { Last(g, a, b); return; }
    var d := StepReconcile(s, b.pc);
    if d.pc == Idle { Last(g, b, d); Step(g, a, b, d); return; }
    var e := StepReconcile(s, d.pc);
    Last(g, d, e);
    Step(g, b, d, e);
    Step(g, a, b, e);
  }

  // ----- rollback ---------------------------------------------------------

  lemma VerdictSteps(g: Given, s: State, c: Contract, oid: ActionId, now: Time, original: Action, success: bool)
    ensures var r := AdvanceRollback(s, oid, original.version, {RollbackRequested},
                                     if success then RolledBack else RollbackFailed, now);
            Leads(g, Move(s, RbRecorded(c, oid, now, original, success)),
                  Move(if r.result.Err? then r.state
                       else ReleaseLease(r.state, c.actionId, c.leaseId, c.fencingToken).state, Idle))
  {
    var a := Move(s, RbRecorded(c, oid, now, original, success));
    var b := StepRollback(s, a.pc, g.cid, g.lid);
    if b.pc == Idle { Last(g, a, b); return; }
    var d := StepRollback(b.state, b.pc, g.cid, g.lid);
    Last(g, b, d);
    Step(g, a, b, d);
  }

  lemma ConcludeRollbackSteps(g: Given, s: State, c: Contract, oid: ActionId, now: Time, original: Action,
                              snap: Snapshot, version: nat)
    requires c.actionId in s.actions && c.target == s.actions[c.actionId].target
    ensures Leads(g, Move(s, RbRestored(c, oid, now, original, snap, version)),
                  Move(ConcludeRollback(s, c, oid, original.version, snap, version, now).state, Idle))
  {
    var a := Move(s, RbRestored(c, oid, now, original, snap, version));
    var b := StepRollback(s, a.pc, g.cid, g.lid);
    if b.pc == Idle { Last(g, a, b); return; }
    var r := RecordVerification(s, c.actionId, version, b.pc.success, now);
    var end := Move(ConcludeRollback(s, c, oid, original.version, snap, version, now).state, Idle);
    if r.result.Err? {
      Last(g, b, Move(r.state, Idle));
    } else {
      VerdictSteps(g, r.state, c, oid, now, original, b.pc.success);
      Step(g, b, Move(r.state, RbRecorded(c, oid, now, original, b.pc.success)), end);
    }
    Step(g, a, b, end);
  }

  lemma MutateKeepsTarget(s: State, id: ActionId, version: nat, revision: nat, fields: Fields, now: Time)
    requires id in s.actions
    ensures var t := MutatePlan(s, id, version, revision, fields, now).state;
            id in t.actions && t.actions[id].target == s.actions[id].target
  {
    var t := MutatePlan(s, id, version, revision, fields, now).state;
    assert t.actions[id].Fixed() == s.actions[id].Fixed();
  }

  /** The restoring write and what follows it. */
  lemma ApprovedSteps(g: Given, s: State, pc: Pc)
    requires pc.RbApproved? && pc.c.actionId in s.actions && pc.c.target == s.actions[pc.c.actionId].target
    ensures var r := MutatePlan(s, pc.c.actionId, pc.version, pc.revision, RestoreFields(pc.snap), pc.now);
            && pc.c.actionId in r.state.actions
            && Leads(g, Move(s, pc), Move(
                 if r.result.Err? then r.state
                 else ConcludeRollback(r.state, pc.c, pc.oid, pc.original.version, pc.snap, r.result.value.version,
                                       pc.now).state,
                 Idle))
  {
    var a := Move(s, pc);
    var r := MutatePlan(s, pc.c.actionId, pc.version, pc.revision, RestoreFields(pc.snap), pc.now);
    MutateKeepsTarget(s, pc.c.actionId, pc.version, pc.revision, RestoreFields(pc.snap), pc.now);
    if r.result.Err? { Last(g, a, Move(r.state, Idle)); return; }
    var v := r.result.value.version;
    ConcludeRollbackSteps(g, r.state, pc.c, pc.oid, pc.now, pc.original, pc.snap, v);
    Step(g, a, Move(r.state, RbRestored(pc.c, pc.oid, pc.now, pc.original, pc.snap, v)),
         Move(ConcludeRollback(r.state, pc.c, pc.oid, pc.original.version, pc.snap, v, pc.now).state, Idle));
  }

  lemma FinishRollbackSteps(g: Given, s: State, c: Contract, oid: ActionId, now: Time, original: Action)
    requires c.actionId in s.actions && c.target == s.actions[c.actionId].target
    ensures Leads(g, Move(s, RbBegun(c, oid, now, original)),
                  Move(FinishRollback(s, c, oid, original, now).state, Idle))
  {
    var a := Move(s, RbBegun(c, oid, now, original));
    var snap, act := SnapshotFor(s, oid), s.actions[c.actionId];
    var end := Move(FinishRollback(s, c, oid, original, now).state, Idle);
    if snap.None? || c.target !in s.plans || s.plans[c.target].revision != original.planRevision + 1 {
      Last(g, a, Move(s, Idle));
    } else if act.state == Running {
      var pc := RbApproved(c, oid, now, original, snap.value, act.version, s.plans[c.target].revision);
      ApprovedSteps(g, s, pc);
      Step(g, a, Move(s, pc), end);
    } else {
      ConcludeRollbackSteps(g, s, c, oid, now, original, snap.value, act.version);
      Step(g, a, Move(s, RbRestored(c, oid, now, original, snap.value, act.version)), end);
    }
  }

  lemma BeginKeepsTarget(s: State, c: Contract, now: Time)
    requires c.actionId in s.actions
    ensures BeginRollback(s, c, now).state.actions[c.actionId].target == s.actions[c.actionId].target
  {
    var t := BeginRollback(s, c, now).state;
    assert t.actions[c.actionId].Fixed() == s.actions[c.actionId].Fixed();
  }

  lemma BeginRollbackStep(g: Given, s: State, c: Contract, oid: ActionId, now: Time, original: Action)
    requires c.actionId in s.actions
    ensures var begun := BeginRollback(s, c, now);
            Leads(g, Move(s, RbBound(c, oid, now, original)),
                  Move(begun.state, if begun.result.Err? then Idle else RbBegun(c, oid, now, original)))
  {
    var begun := BeginRollback(s, c, now);
    Last(g, Move(s, RbBound(c, oid, now, original)),
         Move(begun.state, if begun.result.Err? then Idle else RbBegun(c, oid, now, original)));
  }

  /** Binding the evidence and starting, once the rollback is admitted. */
  lemma StartSteps(g: Given, s: State, c: Contract, oid: ActionId, now: Time, original: Action)
    requires c.actionId in s.actions
    ensures var bound := BindEvidence(s, c.actionId, c);
            var begun := BeginRollback(bound.state, c, now);
            Leads(g, Move(s, RbAdmitted(c, oid, now, original)),
                  if bound.result.Err? then Move(s, Idle)
                  else Move(begun.state, if begun.result.Err? then Idle else RbBegun(c, oid, now, original)))
  {
    var bound := BindEvidence(s, c.actionId, c);
    var a, b := Move(s, RbAdmitted(c, oid, now, original)), Move(bound.state, RbBound(c, oid, now, original));
    if bound.result.Err? { Last(g, a, Move(s, Idle)); return; }
    BeginRollbackStep(g, bound.state, c, oid, now, original);
    Last(g, a, b);
    var begun := BeginRollback(bound.state, c, now);
    Then(g, a, b, Move(begun.state, if begun.result.Err? then Idle else RbBegun(c, oid, now, original)));
  }

  lemma LeaseSteps(g: Given, s: State, rid: ActionId, oid: ActionId, now: Time, original: Action)
    requires rid in s.actions
    ensures var r := LeaseRollback(s, rid, g.lid, now);
            Leads(g, Move(s, RbChecked(rid, oid, now, original)),
                  Move(r.state, if r.result.Err? then Idle else RbLeased(rid, oid, now, original)))
  {
    var r := LeaseRollback(s, rid, g.lid, now);
    Last(g, Move(s, RbChecked(rid, oid, now, original)),
         Move(r.state, if r.result.Err? then Idle else RbLeased(rid, oid, now, original)));
  }

  lemma AdmitSteps(g: Given, s: State, rid: ActionId, oid: ActionId, now: Time, original: Action)
    requires rid in s.actions
    ensures var r := AdmitRollback(s, rid, g.cid, now);
            && Leads(g, Move(s, RbLeased(rid, oid, now, original)),
                     Move(s, if r.Err? then Idle else RbAdmitted(r.value, oid, now, original)))
            && (r.Ok? ==> r.value.target == s.actions[rid].target)
  {
    var r := AdmitRollback(s, rid, g.cid, now);
    Last(g, Move(s, RbLeased(rid, oid, now, original)),
         Move(s, if r.Err? then Idle else RbAdmitted(r.value, oid, now, original)));
  }

  /** From the first checks to the start of the rollback, or to a refusal. */
  lemma OpenSteps(g: Given, s: State, rid: ActionId, oid: ActionId, now: Time, original: Action)
    requires rid in s.actions
    ensures var r := OpenRollback(s, rid, g.cid, g.lid, now);
            && Leads(g, Move(s, RbChecked(rid, oid, now, original)),
                     Move(r.state, if r.result.Err? then Idle else RbBegun(r.result.value, oid, now, original)))
            && (r.result.Ok? ==> r.result.value.target == r.state.actions[rid].target)
  {
    var a := Move(s, RbChecked(rid, oid, now, original));
    var l := LeaseRollback(s, rid, g.lid, now);
    LeaseSteps(g, s, rid, oid, now, original);
    if l.result.Err? { return; }
    var b := Move(l.state, RbLeased(rid, oid, now, original));
    var admitted := AdmitRollback(l.state, rid, g.cid, now);
    AdmitSteps(g, l.state, rid, oid, now, original);
    if admitted.Err? { Then(g, a, b, Move(l.state, Idle)); return; }
    var c := admitted.value;
    var d := Move(l.state, RbAdmitted(c, oid, now, original));
    Then(g, a, b, d);
    StartSteps(g, l.state, c, oid, now, original);
    var bound := BindEvidence(l.state, rid, c);
    if bound.result.Err? { Then(g, a, d, Move(l.state, Idle)); return; }
    var begun := BeginRollback(bound.state, c, now);
    BeginKeepsTarget(bound.state, c, now);
    Then(g, a, d, Move(begun.state, if begun.result.Err? then Idle else RbBegun(c, oid, now, original)));
  }

  /** `Executor.execute_rollback`, past its first checks, is what an
      uninterrupted caller does step by step. */
  lemma RollbackIsItsSteps(g: Given, s: State, rid: ActionId, oid: ActionId, now: Time)
    requires RollbackChecks(s, rid, oid, now).Ok?
    ensures Leads(g, Move(s, RbChecked(rid, oid, now, s.actions[oid])),
                  Move(ExecuteRollback(s, rid, oid, g.cid, g.lid, now).state, Idle))
  {
    var original := s.actions[oid];
    var a := Move(s, RbChecked(rid, oid, now, original));
    OpenSteps(g, s, rid, oid, now, original);
    var r := OpenRollback(s, rid, g.cid, g.lid, now);
    if r.result.Ok? {
      var c := r.result.value;
      FinishRollbackSteps(g, r.state, c, oid, now, original);
      Then(g, a, Move(r.state, RbBegun(c, oid, now, original)),
           Move(FinishRollback(r.state, c, oid, original, now).state, Idle));
    }
  }
}
