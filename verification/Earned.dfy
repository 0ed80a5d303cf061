/** Every execution is earned: over whole runs, an action that got as far as its
    snapshot was first granted to an owner, then confirmed, then captured; and
    every plan written for an action was let through the execution gate. */
module Earned {
  import opened Types
  import opened Lifecycle
  import opened Plans
  import opened KillSwitch
  import opened Store
  import opened Gate
  import opened Executor
  import opened Service
  import opened Protocol
  import opened Invariant
  import opened Reachable
  import opened Conditions
  import opened Footprint
  import opened Theorems
  import opened Provenance
  import R = Reversal
  import E = EmergencyStop

  // ----- snapshots ----------------------------------------------------------------

  /** Event `e` took this snapshot, in state `s`. */
  predicate CapturedAt(s: State, e: Event, snap: Snapshot) {
    && e.CapturePlan? && StaleRead(s, e.seen).Some?
    && var p := StaleRead(s, e.seen).value;
       && Capturable(s, e.id, e.version, p, e.now)
       && snap == Snapshot(e.sid, e.id, p.target, p.environment, p.revision, p)
  }

  ghost predicate CapturedIn(max: nat, t0: Time, es: seq<Event>, snap: Snapshot, j: nat) {
    j < |es| && CapturedAt(After(max, t0, es[..j]).st, es[j], snap)
  }

  lemma SnapshotsAreCaptured(x: Sys, e: Event, i: nat)
    requires SysInv(x) && i < |Step(x, e).st.snapshots|
    ensures (i < |x.st.snapshots| && x.st.snapshots[i] == Step(x, e).st.snapshots[i])
            || CapturedAt(x.st, e, Step(x, e).st.snapshots[i])
  {
    if e.CapturePlan? { CaptureIsCaptured(x.st, e, i); } else { R.OthersCaptureNothing(x, e); }
  }

  lemma CaptureIsCaptured(s: State, e: Event, i: nat)
    requires e.CapturePlan? && i < |Effect(s, e).snapshots|
    ensures (i < |s.snapshots| && s.snapshots[i] == Effect(s, e).snapshots[i])
            || CapturedAt(s, e, Effect(s, e).snapshots[i])
  {
    var p := StaleRead(s, e.seen);
    if p.Some? { CapturesExactly(s, e.id, e.version, p.value, e.sid, e.now); }
  }

  /** In every run each snapshot was taken by an event of the run, of a confirmed
      and unexpired action, at its authorized revision, while staging was open. */
  lemma {:induction false} EverySnapshotWasTaken(max: nat, t0: Time, es: seq<Event>, i: nat)
    requires i < |After(max, t0, es).st.snapshots|
    ensures exists j: nat :: CapturedIn(max, t0, es, After(max, t0, es).st.snapshots[i], j)
    decreases |es|
  {
    var before, e := es[..|es| - 1], es[|es| - 1];
    var x, snap := After(max, t0, before), After(max, t0, es).st.snapshots[i];
    Past(max, t0, before);
    SnapshotsAreCaptured(x, e, i);
    if CapturedAt(x.st, e, snap) {
      assert CapturedIn(max, t0, es, snap, |es| - 1);
    } else {
      EverySnapshotWasTaken(max, t0, before, i);
      var j: nat :| CapturedIn(max, t0, before, snap, j);
      assert before[..j] == es[..j];
      assert CapturedIn(max, t0, es, snap, j);
    }
  }

  // ----- in order ---------------------------------------------------------------------

  /** The action was granted at `i`, confirmed at `j` and captured at `k`. */
  ghost predicate EarnedAt(max: nat, t0: Time, es: seq<Event>, id: ActionId, i: nat, j: nat, k: nat) {
    && i < j < k < |es|
    && (exists d :: GrantedAt(After(max, t0, es[..i]).st, es[i], id, d))
    && (exists p :: ConfirmedAt(After(max, t0, es[..j]).st, es[j], id, p))
    && (exists snap :: CapturedAt(After(max, t0, es[..k]).st, es[k], snap) && snap.actionId == id)
  }

  /** A snapshot can be taken only of a confirmed action. */
  lemma CapturedHasApprover(s: State, e: Event, snap: Snapshot)
    requires Inv(s) && CapturedAt(s, e, snap)
    ensures snap.actionId in s.actions && s.actions[snap.actionId].approver.Some?
  {
    assert ActionOk(s, snap.actionId);
  }

  lemma CapturedIsConfirmed(max: nat, t0: Time, es: seq<Event>, id: ActionId, snap: Snapshot, k: nat)
    returns (p: Subject, j: nat)
    requires CapturedIn(max, t0, es, snap, k) && snap.actionId == id
    ensures j < k && ConfirmedAt(After(max, t0, es[..j]).st, es[j], id, p)
  {
    Past(max, t0, es[..k]);
    CapturedHasApprover(After(max, t0, es[..k]).st, es[k], snap);
    p := After(max, t0, es[..k]).st.actions[id].approver.value;
    EveryActionWasConfirmed(max, t0, es[..k], id);
    j :| ConfirmedIn(max, t0, es[..k], id, p, j);
    assert es[..k][..j] == es[..j];
  }

  lemma ConfirmedHasDecision(s: State, e: Event, id: ActionId, p: Subject)
    requires Inv(s) && ConfirmedAt(s, e, id, p)
    ensures id in s.decisions
  {
    assert ActionOk(s, id);
  }

  lemma ConfirmedIsGranted(max: nat, t0: Time, es: seq<Event>, id: ActionId, p: Subject, j: nat)
    returns (d: Decision, i: nat)
    requires j < |es| && ConfirmedAt(After(max, t0, es[..j]).st, es[j], id, p)
    ensures i < j && GrantedAt(After(max, t0, es[..i]).st, es[i], id, d)
  {
    Past(max, t0, es[..j]);
    ConfirmedHasDecision(After(max, t0, es[..j]).st, es[j], id, p);
    d := After(max, t0, es[..j]).st.decisions[id];
    EveryDecisionWasGranted(max, t0, es[..j], id);
    i :| Granted(max, t0, es[..j], id, d, i);
    assert es[..j][..i] == es[..i];
  }

  lemma FirstIsIn(s: State, id: ActionId) returns (n: nat)
    requires SnapshotFor(s, id).Some?
    ensures n < |s.snapshots| && s.snapshots[n].actionId == id
  {
    FirstSnapshotIsOne(s.snapshots, id);
    n :| 0 <= n < |s.snapshots| && s.snapshots[n] == SnapshotFor(s, id).value;
  }

  /** In every run, an action that got as far as its snapshot, and so every action
      that was leased, executed or verified, was first granted to an owner within
      the policy, later confirmed in time by its requester, and later still
      captured at its authorized revision with staging open. */
  lemma EveryExecutionIsEarned(max: nat, t0: Time, es: seq<Event>, id: ActionId)
    requires PastCapture(After(max, t0, es).st, id)
    ensures exists i: nat, j: nat, k: nat :: EarnedAt(max, t0, es, id, i, j, k)
  {
    R.RunTakes(max, t0, es);
    var n := FirstIsIn(After(max, t0, es).st, id);
    var snap := After(max, t0, es).st.snapshots[n];
    EverySnapshotWasTaken(max, t0, es, n);
    var k: nat :| CapturedIn(max, t0, es, snap, k);
    var p, j := CapturedIsConfirmed(max, t0, es, id, snap, k);
    var d, i := ConfirmedIsGranted(max, t0, es, id, p, j);
    assert EarnedAt(max, t0, es, id, i, j, k);
  }

  // ----- the gate ------------------------------------------------------------------------

  /** In `x`, event `e` is the gate letting this contract through, on the first
      attempt of its action. */
  predicate LetsThrough(x: Sys, e: Event, c: Contract) {
    && e.Continue? && Pc0(x, e.t).ExBound? && Pc0(x, e.t).c == c && Pc0(x, e.t).seen == Leased
    && Evaluate(x.st, c, Pc0(x, e.t).now) == GateAllowed
  }

  ghost predicate Passed(max: nat, t0: Time, es: seq<Event>, c: Contract, j: nat) {
    j < |es| && LetsThrough(After(max, t0, es[..j]), es[j], c)
  }

  ghost predicate HasPassed(max: nat, t0: Time, es: seq<Event>, c: Contract) {
    exists j: nat :: Passed(max, t0, es, c, j)
  }

  lemma PassedLater(max: nat, t0: Time, es: seq<Event>, e: Event, c: Contract)
    requires HasPassed(max, t0, es, c)
    ensures HasPassed(max, t0, es + [e], c)
  {
    var j: nat :| Passed(max, t0, es, c, j);
    assert (es + [e])[..j] == es[..j];
    assert Passed(max, t0, es + [e], c, j);
  }

  /** A caller that saw its action in another state than LEASED cannot match the
      lease: there was none yet, or it was granted for an earlier version. */
  predicate CannotResume(s: State, c: Contract, seen: LifecycleState) {
    && c.actionId in s.actions && c.actionVersion <= s.actions[c.actionId].version
    && match seen
       case SnapshotCaptured =>
         && (c.actionId in s.leases ==> s.leases[c.actionId].actionVersion > c.actionVersion)
         && (c.actionId !in s.leases ==> Rank(s.actions[c.actionId].state) > Rank(Leased))
       case Running => c.actionId in s.leases && s.leases[c.actionId].actionVersion < c.actionVersion
       case ExecutedPendingVerification =>
         c.actionId in s.leases && s.leases[c.actionId].actionVersion < c.actionVersion
       case _ => true
  }

  lemma CheckedCannotResume(s: State, c: Contract, now: Time)
    requires Inv(s) && ValidateWorld(s, c, now).Ok? && s.actions[c.actionId].state != Leased
    ensures CannotResume(s, c, s.actions[c.actionId].state)
  {
    assert ActionOk(s, c.actionId);
  }

  lemma CannotResumeStays(s: State, t: State, c: Contract, seen: LifecycleState)
    requires CannotResume(s, c, seen) && Inv(t) && Invariant.Evolves(s, t) && FreshLeases(s, t)
    ensures CannotResume(t, c, seen)
  {
    assert IdEvolves(s, t, c.actionId) && ActionOk(t, c.actionId);
  }

  lemma CannotResumeFails(s: State, c: Contract, seen: LifecycleState, now: Time)
    requires CannotResume(s, c, seen) && seen != Leased
    ensures Preconditions(s, c, seen, now).Err?
  {
  }

  /** Every caller past the gate has passed it, and one that has not come that far
      and has seen its action in another state cannot. */
  ghost predicate PcEarned(max: nat, t0: Time, es: seq<Event>, s: State, pc: Pc) {
    && (pc.ExChecked? || pc.ExBound? || pc.ExGated? ==> pc.seen == Leased || CannotResume(s, pc.c, pc.seen))
    && (pc.ExGated? && pc.seen == Leased ==> HasPassed(max, t0, es, pc.c))
    && (pc.ExReady? || pc.ExBegun? || pc.ExRunning? ==> HasPassed(max, t0, es, pc.c))
  }

  ghost predicate CallersEarned(max: nat, t0: Time, es: seq<Event>, x: Sys) {
    forall t :: t in x.threads ==> PcEarned(max, t0, es, x.st, x.threads[t])
  }

  lemma PcEarnedStays(max: nat, t0: Time, es: seq<Event>, e: Event, s: State, t: State, pc: Pc)
    requires PcEarned(max, t0, es, s, pc) && Inv(t) && Invariant.Evolves(s, t) && FreshLeases(s, t)
    ensures PcEarned(max, t0, es + [e], t, pc)
  {
    if (pc.ExChecked? || pc.ExBound? || pc.ExGated?) && pc.seen != Leased { CannotResumeStays(s, t, pc.c, pc.seen); }
    if (pc.ExGated? && pc.seen == Leased) || pc.ExReady? || pc.ExBegun? || pc.ExRunning? {
      PassedLater(max, t0, es, e, pc.c);
    }
  }

  /** Where a caller of `execute` can have come from. */
  lemma CameFrom(s: State, pc: Pc)
    ensures var m := StepExecute(s, pc);
            m.pc != pc ==>
              && (m.pc.ExChecked? ==> pc.ExBuilt? && m.pc.c == pc.c && m.state == s
                                      && ValidateWorld(s, pc.c, pc.now).Ok?
                                      && m.pc.seen == s.actions[pc.c.actionId].state)
              && (m.pc.ExBound? ==> pc.ExChecked? && m.pc.c == pc.c && m.pc.seen == pc.seen)
              && (m.pc.ExGated? ==> pc.ExBound? && m.pc.c == pc.c && m.pc.seen == pc.seen
                                    && (pc.seen == Leased ==> Evaluate(s, pc.c, pc.now) == GateAllowed))
              && (m.pc.ExReady? ==> pc.ExGated? && m.pc.c == pc.c && Preconditions(s, pc.c, pc.seen, pc.now).Ok?)
              && (m.pc.ExBegun? ==> pc.ExReady? && m.pc.c == pc.c)
              && (m.pc.ExRunning? ==> pc.ExBegun? && m.pc.c == pc.c)
  {
  }

  /** Callers of the other two verbs are never where the gate matters. */
  lemma NotExecuting(s: State, pc: Pc, cid: ConfirmationId, lid: LeaseId)
    requires !E.UnderWay(pc)
    ensures !E.UnderWay(StepReconcile(s, pc).pc) && !E.UnderWay(StepRollback(s, pc, cid, lid).pc)
  {
  }

  lemma StepLeases(x: Sys, e: Event)
    requires SysInv(x)
    ensures FreshLeases(x.st, Step(x, e).st)
  {
    if Ordinary(e) { OrdinaryIsUneventful(x, e); }
    else if e.AuthorizeRequest? { AuthorizeRegisters(x.st, CallOf(x.st, e).value, None); }
    else if e.RequestRollback? { RollbackLeasesNothing(x, e); }
    else if e.AskConfirmation? { AskingTouchesBindings(x.st, e.id, e.pending, e.now); }
    else if e.ConfirmAction? { ConfirmingIs(x.st, e.cid, e.version, e.actor, e.now); }
    else {
      var p := StaleRead(x.st, e.seen);
      if p.Some? { CapturesExactly(x.st, e.id, e.version, p.value, e.sid, e.now); }
    }
  }

  lemma RollbackLeasesNothing(x: Sys, e: Event)
    requires SysInv(x) && e.RequestRollback?
    ensures Step(x, e).st.leases == x.st.leases
  {
    if Step(x, e).st != x.st {
      var snap := SnapshotFor(x.st, e.original);
      AuthorizeRegisters(x.st, CallOf(x.st, e).value, Some(Refs(e.original, snap.value.id)));
    }
  }

  /** The caller that moves is where it is entitled to be. */
  lemma MovedIsEarned(max: nat, t0: Time, es: seq<Event>, e: Event)
    requires var x := After(max, t0, es); SysInv(x) && CallersEarned(max, t0, es, x) && e.Continue?
    requires var x := After(max, t0, es);
             && Inv(Step(x, e).st) && Invariant.Evolves(x.st, Step(x, e).st) && FreshLeases(x.st, Step(x, e).st)
    requires var x := After(max, t0, es);
             StepExecute(x.st, Pc0(x, e.t)) == StepCaller(x.st, Pc0(x, e.t), e.cid, e.leaseId)
    requires E.UnderWay(Step(After(max, t0, es), e).threads[e.t])
    ensures var y := Step(After(max, t0, es), e); PcEarned(max, t0, es + [e], y.st, y.threads[e.t])
  {
    var x := After(max, t0, es);
    var pc, y := Pc0(x, e.t), Step(x, e);
    var next := y.threads[e.t];
    CameFrom(x.st, pc);
    if next == pc {
      PcEarnedStays(max, t0, es, e, x.st, y.st, pc);
    } else if next.ExChecked? {
      if next.seen != Leased { CheckedCannotResume(x.st, pc.c, pc.now); }
    } else if next.ExBound? {
      if next.seen != Leased { CannotResumeStays(x.st, y.st, pc.c, pc.seen); }
    } else if next.ExGated? {
      if next.seen != Leased {
        CannotResumeStays(x.st, y.st, pc.c, pc.seen);
      } else {
        assert (es + [e])[..|es|] == es;
        assert Passed(max, t0, es + [e], pc.c, |es|);
      }
    } else {
      if next.ExReady? && pc.seen != Leased { CannotResumeFails(x.st, pc.c, pc.seen, pc.now); }
      PassedLater(max, t0, es, e, pc.c);
    }
  }

  lemma Dispatches(s: State, pc: Pc, cid: ConfirmationId, lid: LeaseId)
    ensures E.UnderWay(StepCaller(s, pc, cid, lid).pc) ==> StepExecute(s, pc) == StepCaller(s, pc, cid, lid)
  {
  }

  /** Events other than a caller's step leave callers where they are, or take them
      to the start of a verb. */
  lemma OthersStay(x: Sys, e: Event, t: nat)
    requires t in Step(x, e).threads && E.UnderWay(Step(x, e).threads[t]) && !(e.Continue? && e.t == t)
    ensures t in x.threads && x.threads[t] == Step(x, e).threads[t]
  {
  }

  lemma IdleIsEarned(max: nat, t0: Time, es: seq<Event>, s: State, pc: Pc)
    requires !E.UnderWay(pc)
    ensures PcEarned(max, t0, es, s, pc)
  {
  }

  lemma CallerIsEarned(max: nat, t0: Time, es: seq<Event>, e: Event, t: nat)
    requires var x := After(max, t0, es);
             && SysInv(x) && CallersEarned(max, t0, es, x) && t in Step(x, e).threads
             && Inv(Step(x, e).st) && Invariant.Evolves(x.st, Step(x, e).st) && FreshLeases(x.st, Step(x, e).st)
    ensures var y := Step(After(max, t0, es), e); PcEarned(max, t0, es + [e], y.st, y.threads[t])
  {
    var x := After(max, t0, es);
    var y := Step(x, e);
    if !E.UnderWay(y.threads[t]) {
      IdleIsEarned(max, t0, es + [e], y.st, y.threads[t]);
    } else if e.Continue? && e.t == t {
      Dispatches(x.st, Pc0(x, t), e.cid, e.leaseId);
      MovedIsEarned(max, t0, es, e);
    } else {
      OthersStay(x, e, t);
      PcEarnedStays(max, t0, es, e, x.st, y.st, x.threads[t]);
    }
  }

  lemma CallersGoOn(max: nat, t0: Time, es: seq<Event>, e: Event)
    requires SysInv(After(max, t0, es)) && CallersEarned(max, t0, es, After(max, t0, es))
    ensures CallersEarned(max, t0, es + [e], Step(After(max, t0, es), e))
  {
    var x := After(max, t0, es);
    StepKeeps(x, e);
    StepLeases(x, e);
    forall t | t in Step(x, e).threads
      ensures PcEarned(max, t0, es + [e], Step(x, e).st, Step(x, e).threads[t]) {
      CallerIsEarned(max, t0, es, e, t);
    }
  }

  lemma {:induction false} RunIsEarned(max: nat, t0: Time, es: seq<Event>)
    ensures CallersEarned(max, t0, es, After(max, t0, es))
    decreases |es|
  {
    if es == [] { return; }
    var before := es[..|es| - 1];
    RunIsEarned(max, t0, before);
    Past(max, t0, before);
    CallersGoOn(max, t0, before, es[|es| - 1]);
    assert before + [es[|es| - 1]] == es;
  }

  /** The write was let through at `j` with contract `c`. */
  ghost predicate Admitted(max: nat, t0: Time, es: seq<Event>, id: ActionId, c: Contract, j: nat) {
    Passed(max, t0, es, c, j) && c.actionId == id
  }

  lemma WriterHasPassed(max: nat, t0: Time, es: seq<Event>, e: Event, id: ActionId)
    requires E.Writes(After(max, t0, es), e, id)
    ensures exists c, j: nat :: Admitted(max, t0, es + [e], id, c, j)
  {
    RunIsEarned(max, t0, es);
    var x := After(max, t0, es);
    assert PcEarned(max, t0, es, x.st, x.threads[e.t]);
    var c := Pc0(x, e.t).c;
    PassedLater(max, t0, es, e, c);
    var j: nat :| Passed(max, t0, es + [e], c, j);
    assert Admitted(max, t0, es + [e], id, c, j);
  }

  lemma {:induction false} WritesAreAdmitted(max: nat, t0: Time, es: seq<Event>, i: nat)
    requires i < |After(max, t0, es).st.log| && After(max, t0, es).st.log[i].author.By?
    ensures exists c, j: nat :: Admitted(max, t0, es, After(max, t0, es).st.log[i].author.action, c, j)
    decreases |es|
  {
    var before, e := es[..|es| - 1], es[|es| - 1];
    var x, id := After(max, t0, before), After(max, t0, es).st.log[i].author.action;
    assert before + [e] == es;
    Past(max, t0, before);
    StepKeeps(x, e);
    if i < |x.st.log| {
      assert x.st.log[i] == After(max, t0, es).st.log[i];
      WritesAreAdmitted(max, t0, before, i);
      var c, j: nat :| Admitted(max, t0, before, id, c, j);
      PassedLater(max, t0, before, e, c);
      var k: nat :| Passed(max, t0, es, c, k);
      assert Admitted(max, t0, es, id, c, k);
    } else {
      E.WritersAreRunning(x, e, i);
      WriterHasPassed(max, t0, before, e, id);
    }
  }

  /** What the gate saw: staging open, the very plan that was later replaced, the
      action in time, its confirmation given and unused, its lease held. */
  predicate GateSaw(s: State, w: Write, id: ActionId, cid: ConfirmationId, now: Time) {
    && Permits(s.switches, Staging) && w.target in s.plans && w.before == Some(s.plans[w.target])
    && id in s.actions && now < s.actions[id].expiresAt
    && cid in s.bindings && s.bindings[cid].actionId == id && s.bindings[cid].state != BindingConsumed
    && now < s.bindings[cid].expiresAt
    && id in s.leases && s.leases[id].granted && now < s.leases[id].expiresAt
  }

  lemma GateSawAuthorized(s: State, t: State, c: Contract, now: Time, w: Write)
    requires Inv(t) && Invariant.Evolves(s, t) && Bound(s, c) && Evaluate(s, c, now) == GateAllowed
    requires AuthoredOk(t, w) && w.author == By(c.actionId)
    ensures GateSaw(s, w, c.actionId, c.confirmationId, now)
  {
    AllowedMeans(s, c, now);
    assert IdEvolves(s, t, c.actionId);
    assert s.actions[c.actionId].Fixed() == t.actions[c.actionId].Fixed();
  }

  /** In every run each plan written for an action was let through the execution
      gate before, on the action's first attempt; and the gate saw staging open,
      the confirmation unused, the lease held, and the very plan that the write
      then replaced. */
  lemma EveryWritePassedTheGate(max: nat, t0: Time, es: seq<Event>, i: nat)
    requires i < |After(max, t0, es).st.log| && After(max, t0, es).st.log[i].author.By?
    ensures var w := After(max, t0, es).st.log[i];
            exists c, j: nat ::
              && Admitted(max, t0, es, w.author.action, c, j)
              && GateSaw(After(max, t0, es[..j]).st, w, w.author.action, c.confirmationId,
                         Pc0(After(max, t0, es[..j]), es[j].t).now)
  {
    var w := After(max, t0, es).st.log[i];
    WritesAreAdmitted(max, t0, es, i);
    var c, j: nat :| Admitted(max, t0, es, w.author.action, c, j);
    AdmittedSaw(max, t0, es, i, c, j);
  }

  lemma AdmittedSaw(max: nat, t0: Time, es: seq<Event>, i: nat, c: Contract, j: nat)
    requires i < |After(max, t0, es).st.log| && After(max, t0, es).st.log[i].author.By?
    requires Admitted(max, t0, es, After(max, t0, es).st.log[i].author.action, c, j)
    ensures var w := After(max, t0, es).st.log[i];
            GateSaw(After(max, t0, es[..j]).st, w, w.author.action, c.confirmationId,
                    Pc0(After(max, t0, es[..j]), es[j].t).now)
  {
    var x := After(max, t0, es[..j]);
    assert es[..j] + es[j..] == es;
    RunSplits(Start(max, t0), es[..j], es[j..]);
    Future(max, t0, es[..j], es[j..]);
    assert PcOk(x.st, x.threads[es[j].t]);
    assert AuthoredOk(After(max, t0, es).st, After(max, t0, es).st.log[i]);
    GateSawAuthorized(x.st, After(max, t0, es).st, c, Pc0(x, es[j].t).now, After(max, t0, es).st.log[i]);
  }
}
