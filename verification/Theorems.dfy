/** What holds in every run of the control plane from an empty store, for any
    number of interleaved callers, crashes and operator interventions. */
module Theorems {
  import opened Types
  import opened Lifecycle
  import opened Plans
  import opened KillSwitch
  import opened Store
  import opened Gate
  import opened Executor
  import opened Service
  import opened Protocol
  import opened Invariant
  import opened Preservation
  import opened Reachable
  import opened Alone
  import F = Footprint

  /** The system after the events `es`, started empty. */
  function After(max: nat, t0: Time, es: seq<Event>): Sys { Run(Start(max, t0), es) }

  lemma Past(max: nat, t0: Time, es: seq<Event>)
    ensures SysInv(After(max, t0, es))
  {
    InitialOk(max, t0);
    RunKeeps(Start(max, t0), es);
  }

  lemma Future(max: nat, t0: Time, es: seq<Event>, fs: seq<Event>)
    ensures SysInv(After(max, t0, es)) && SysInv(Run(After(max, t0, es), fs))
    ensures Evolves(After(max, t0, es).st, Run(After(max, t0, es), fs).st)
  {
    Past(max, t0, es);
    RunKeeps(After(max, t0, es), fs);
  }

  // ----- no lost updates --------------------------------------------------

  /** Write `i` replaced what the last earlier write of its target left. */
  predicate Replaces(log: seq<Write>, j: nat, i: nat) {
    && j < i < |log| && log[j].target == log[i].target && log[i].before == Some(log[j].after)
    && forall k :: j < k < i ==> log[k].target != log[i].target
  }

  lemma WriteReplacesAuthorized(s: State, i: nat)
    requires Inv(s) && i < |s.log| && s.log[i].author.By?
    ensures exists j :: Replaces(s.log, j, i)
  {
    var w := s.log[i];
    assert AuthoredOk(s, w) && ActionOk(s, w.author.action);
    assert WriteOk(w);
    LoggedBeforeReplaces(s.log, i, s.decisions[w.author.action].identity.targetDigest);
  }

  lemma LoggedBeforeReplaces(log: seq<Write>, i: nat, p: ProjectPlan)
    requires Ordered(log) && i < |log| && Logged(log, log[i].target, p)
    requires log[i].before == Some(p) && log[i].after.revision == p.revision + 1
    ensures exists j :: Replaces(log, j, i)
  {
    var j :| 0 <= j < |log| && log[j].target == log[i].target && log[j].after == p;
    assert Replaces(log, j, i);
  }

  /** The write is what its action was authorized to do. */
  predicate WriteIsAuthorized(s: State, w: Write) {
    w.author.By? ==>
      && w.author.action in s.decisions
      && var d := s.decisions[w.author.action];
         && w.before == Some(d.identity.targetDigest) && w.target == d.request.target
         && w.after.revision == d.identity.targetRevision + 1 && Carries(w.after, d.Mutation())
         && w.after.updatedAt < d.decidedAt + DECISION_TTL
  }

  lemma AuthoredIsAuthorized(s: State, w: Write)
    requires AuthoredOk(s, w) && (w.author.By? ==> ActionOk(s, w.author.action))
    ensures WriteIsAuthorized(s, w)
  {
  }

  /** No two writes of one target make the same revision, and no action writes
      twice. */
  lemma WritesAreDistinct(s: State, i: nat, j: nat)
    requires Inv(s) && i < j < |s.log|
    ensures s.log[i].target == s.log[j].target ==> s.log[i].after.revision < s.log[j].after.revision
    ensures s.log[i].author.By? ==> s.log[i].author != s.log[j].author
  {
    assert AuthoredOk(s, s.log[i]) && AuthoredOk(s, s.log[j]);
  }

  /** No lost updates.  Whenever an action's mutation is applied, the plan it
      replaces is the one that was authorized and nobody wrote in between; it
      adds one revision with the requested content, within five minutes of the
      decision; every revision is written once; no action writes twice; and a
      target's revision is one plus the mutations applied to it. */
  lemma NoLostUpdates(max: nat, t0: Time, es: seq<Event>)
    ensures
      var s := After(max, t0, es).st;
      && (forall i :: 0 <= i < |s.log| ==> WriteIsAuthorized(s, s.log[i]))
      && (forall i :: 0 <= i < |s.log| && s.log[i].author.By? ==> exists j :: Replaces(s.log, j, i))
      && (forall i, j :: 0 <= i < j < |s.log| ==>
            && (s.log[i].target == s.log[j].target ==> s.log[i].after.revision < s.log[j].after.revision)
            && (s.log[i].author.By? ==> s.log[i].author != s.log[j].author))
      && (forall t :: t in s.plans ==> Logged(s.log, t, s.plans[t]) && s.plans[t].revision == 1 + Mutations(s.log, t))
  {
    Past(max, t0, es);
    var s := After(max, t0, es).st;
    forall i | 0 <= i < |s.log| ensures WriteIsAuthorized(s, s.log[i]) {
      assert AuthoredOk(s, s.log[i]);
      AuthoredIsAuthorized(s, s.log[i]);
    }
    forall i | 0 <= i < |s.log| && s.log[i].author.By? ensures exists j :: Replaces(s.log, j, i) {
      WriteReplacesAuthorized(s, i);
    }
    forall i, j | 0 <= i < j < |s.log|
      ensures s.log[i].target == s.log[j].target ==> s.log[i].after.revision < s.log[j].after.revision
      ensures s.log[i].author.By? ==> s.log[i].author != s.log[j].author {
      WritesAreDistinct(s, i, j);
    }
    forall t | t in s.plans ensures Logged(s.log, t, s.plans[t]) && s.plans[t].revision == 1 + Mutations(s.log, t) {
      assert StoredOk(s.plans, s.log, t);
    }
  }

  // ----- a failed verification is never undone ----------------------------

  lemma OvertakenIsUnsafe(s: State, id: ActionId)
    requires Inv(s) && id in s.actions && Overtaken(s, s.actions[id])
    ensures id in s.decisions && s.actions[id].target in s.plans && RollbackSafety(s, id) != Safe
  {
    assert ActionOk(s, id);
    var snap := SnapshotFor(s, id);
    if snap.Some? {
      FirstSnapshotIsOne(s.snapshots, id);
      var i :| 0 <= i < |s.snapshots| && s.snapshots[i] == snap.value;
      assert SnapshotOk(s, s.snapshots[i]);
    }
  }

  lemma {:induction false} FirstSnapshotIsOne(snaps: seq<Snapshot>, id: ActionId)
    ensures var f := FirstSnapshot(snaps, id);
            && (f.Some? ==> f.value.actionId == id && exists i :: 0 <= i < |snaps| && snaps[i] == f.value)
            && (f.None? ==> forall i :: 0 <= i < |snaps| ==> snaps[i].actionId != id)
  {
    if snaps != [] && snaps[0].actionId != id {
      FirstSnapshotIsOne(snaps[1..], id);
      var f := FirstSnapshot(snaps, id);
      if f.Some? {
        var i :| 0 <= i < |snaps| - 1 && snaps[1..][i] == f.value;
        assert snaps[i + 1] == f.value;
      } else {
        forall i | 0 <= i < |snaps| ensures snaps[i].actionId != id {
          if i > 0 { assert snaps[i] == snaps[1..][i - 1]; }
        }
      }
    }
  }

  /** If an action's read-back verification failed at some point of a run, then
      at every later point its target has moved on, its rollback is not planned
      as safe, and no caller is in, or past, the step that would restore the old
      content. */
  lemma FailedVerificationIsFinal(max: nat, t0: Time, es: seq<Event>, fs: seq<Event>, id: ActionId)
    requires id in After(max, t0, es).st.actions && After(max, t0, es).st.actions[id].state == VerificationFailed
    ensures
      var y := Run(After(max, t0, es), fs);
      && id in y.st.actions && id in y.st.decisions && y.st.actions[id].target in y.st.plans
      && y.st.plans[y.st.actions[id].target].revision > y.st.actions[id].planRevision + 1
      && RollbackSafety(y.st, id) != Safe
      && (forall u :: u in y.threads ==> !Restoring(y.threads[u]))
  {
    Future(max, t0, es, fs);
    NobodyRestores(Run(After(max, t0, es), fs));
    var s, t := After(max, t0, es).st, Run(After(max, t0, es), fs).st;
    assert ActionOk(s, id);
    assert IdEvolves(s, t, id) && PlanEvolves(s, t, s.actions[id].target);
    assert s.actions[id].Fixed() == t.actions[id].Fixed();
    OvertakenIsUnsafe(t, id);
  }

  predicate Restoring(pc: Pc) {
    pc.RbApproved? || pc.RbRestored? || pc.RbObserved? || pc.RbRecorded? || pc.RbFinished?
  }

  lemma NobodyRestores(x: Sys)
    requires SysInv(x)
    ensures forall u :: u in x.threads ==> !Restoring(x.threads[u])
  {
    forall u | u in x.threads ensures !Restoring(x.threads[u]) { assert PcOk(x.st, x.threads[u]); }
  }

  /** No rollback ever restores anything: in no run does a rollback action write
      a plan, does a caller reach the restoring step, or does any action become
      rolled back, rollback-failed or execution-failed. */
  lemma RollbackNeverWrites(max: nat, t0: Time, es: seq<Event>)
    ensures
      var x := After(max, t0, es);
      && (forall i :: 0 <= i < |x.st.log| && x.st.log[i].author.By? ==>
            x.st.log[i].author.action in x.st.actions
            && x.st.actions[x.st.log[i].author.action].operation == UpdateProjectPlan)
      && (forall t :: t in x.threads ==> !Restoring(x.threads[t]))
      && (forall id :: id in x.st.actions ==>
            && !x.st.actions[id].state.RolledBack? && !x.st.actions[id].state.RollbackFailed?
            && !x.st.actions[id].state.ExecutionFailed?)
  {
    Past(max, t0, es);
    var x := After(max, t0, es);
    forall i | 0 <= i < |x.st.log| ensures AuthoredOk(x.st, x.st.log[i]) {}
    NobodyRestores(x);
    forall id | id in x.st.actions ensures Visited(x.st.actions[id]) { assert ActionOk(x.st, id); }
  }

  /** A rollback that has begun stops at a plan that has moved on. */
  lemma OvertakenStops(b: State, c: Contract, oid: ActionId, original: Action, now: Time)
    requires c.actionId in b.actions && b.actions[c.actionId].target in b.plans
    requires b.plans[b.actions[c.actionId].target].revision > original.planRevision + 1
    ensures FinishRollback(b, c, oid, original, now).result.Err? && FinishRollback(b, c, oid, original, now).state == b
  {
  }

  lemma RollbackRefused(s: State, rid: ActionId, oid: ActionId, cid: ConfirmationId, lid: LeaseId, now: Time)
    requires Inv(s)
    ensures var r := ExecuteRollback(s, rid, oid, cid, lid, now);
            r.result.Err? && r.state.plans == s.plans && r.state.log == s.log
  {
    if RollbackChecks(s, rid, oid, now).Ok? {
      RollbackStartsDoomed(s, rid, oid, now);
      ReachableIsOrderly(s);
      assert RecordOk(s, rid);
      var b := OpenRollback(s, rid, cid, lid, now);
      if b.result.Ok? {
        OpenedRollback(s, rid, cid, lid, now);
        OvertakenStops(b.state, b.result.value, oid, s.actions[oid], now);
      }
    }
  }

  /** Run alone, `execute_rollback` is refused in every reachable state and
      leaves every plan as it was. */
  lemma RollbackIsRefused(max: nat, t0: Time, es: seq<Event>, rid: ActionId, oid: ActionId, cid: ConfirmationId,
                          lid: LeaseId, now: Time)
    ensures var s := After(max, t0, es).st;
            var r := ExecuteRollback(s, rid, oid, cid, lid, now);
            r.result.Err? && r.state.plans == s.plans && r.state.log == s.log
  {
    Past(max, t0, es);
    RollbackRefused(After(max, t0, es).st, rid, oid, cid, lid, now);
  }

  // ----- reconciliation ---------------------------------------------------

  /** Caller `t` is about to record what it concluded about its action. */
  predicate Concluding(x: Sys, t: nat, verdict: Outcome) {
    t in x.threads && x.threads[t].RcObserved? && x.threads[t].verdict == verdict
  }

  predicate WroteBy(s: State, id: ActionId) {
    exists i :: 0 <= i < |s.log| && s.log[i].author == By(id)
  }

  /** What recording a conclusion does: one action moves, one outcome is noted. */
  predicate Settled(s: State, t: State, id: ActionId, version: nat, next: LifecycleState, outcome: Outcome) {
    && id in s.actions && s.actions[id].version == version && id in t.actions && t.actions[id].state == next
    && t == s.(actions := s.actions[id := t.actions[id]], outcomes := s.outcomes[id := outcome])
  }

  function Next(verdict: Outcome): LifecycleState {
    if verdict == MutationSucceeded then ExecutedPendingVerification else ReconciliationRequired
  }

  lemma SettleDid(s: State, c: Contract, version: nat, verdict: Outcome, now: Time)
    requires verdict == MutationSucceeded || verdict == MutationNotStarted
    requires Settle(s, c, version, verdict, now).state != s
    ensures Settled(s, Settle(s, c, version, verdict, now).state, c.actionId, version, Next(verdict), verdict)
  {
    AdvanceDid(s, c.actionId, version, Next(verdict), s.actions[c.actionId].requester, now);
  }

  lemma SettleStepIs(x: Sys, t: nat, cid: ConfirmationId, lid: LeaseId)
    requires t in x.threads && x.threads[t].RcObserved?
    ensures var pc := x.threads[t];
            Step(x, Continue(t, cid, lid)).st == Settle(x.st, pc.c, pc.version, pc.verdict, pc.now).state
  {
  }

  /** A caller that concludes, and changes something, settles its action. */
  lemma ConcludingSettles(x: Sys, t: nat, cid: ConfirmationId, lid: LeaseId, verdict: Outcome)
    requires verdict == MutationSucceeded || verdict == MutationNotStarted
    requires Concluding(x, t, verdict) && Step(x, Continue(t, cid, lid)).st != x.st
    ensures var pc := x.threads[t];
            Settled(x.st, Step(x, Continue(t, cid, lid)).st, pc.c.actionId, pc.version, Next(verdict), verdict)
  {
    var pc := x.threads[t];
    SettleStepIs(x, t, cid, lid);
    SettleDid(x.st, pc.c, pc.version, verdict, pc.now);
  }

  /** An action past execution that never wrote never will. */
  ghost predicate Unwritable(y: Sys, id: ActionId) {
    SysInv(y) && id in y.st.actions && !WroteBy(y.st, id) && Rank(y.st.actions[id].state) < Rank(Running)
  }

  lemma NeverAfterwards(y: Sys, fs: seq<Event>, id: ActionId)
    requires Unwritable(y, id)
    ensures !WroteBy(Run(y, fs).st, id)
  {
    RunKeeps(y, fs);
    NoLateWrite(y.st, Run(y, fs).st, id);
  }

  lemma NoLateWrite(s: State, t: State, id: ActionId)
    requires Evolves(s, t) && id in s.actions && !WroteBy(s, id) && Rank(s.actions[id].state) < Rank(Running)
    ensures !WroteBy(t, id)
  {
    forall i | 0 <= i < |t.log| ensures t.log[i].author != By(id) {
      if i < |s.log| { assert t.log[i] == s.log[i]; } else { assert LateWrite(s, t, t.log[i]); }
    }
  }

  /** Nothing was written by an action whose version is still the one at which
      it was seen unwritten. */
  lemma SettledUnwritten(s: State, t: State, id: ActionId, version: nat)
    requires Settled(s, t, id, version, ReconciliationRequired, MutationNotStarted) && UnwrittenAt(s, id, version)
    ensures !WroteBy(t, id)
  {
  }

  /** NOT STARTED is recorded only for a mutation that was never applied, and
      then never will be. */
  lemma NotStartedMeansNever(max: nat, t0: Time, es: seq<Event>, fs: seq<Event>, t: nat, cid: ConfirmationId,
                             lid: LeaseId)
    requires var x := After(max, t0, es);
             Concluding(x, t, MutationNotStarted) && Step(x, Continue(t, cid, lid)).st != x.st
    ensures var x := After(max, t0, es);
            var pc := x.threads[t];
            var y := Step(x, Continue(t, cid, lid));
            && Settled(x.st, y.st, pc.c.actionId, pc.version, ReconciliationRequired, MutationNotStarted)
            && !WroteBy(Run(y, fs).st, pc.c.actionId)
  {
    var x := After(max, t0, es);
    Past(max, t0, es);
    NotStartedFrom(x, fs, t, cid, lid);
  }

  lemma NotStartedFrom(x: Sys, fs: seq<Event>, t: nat, cid: ConfirmationId, lid: LeaseId)
    requires SysInv(x) && Concluding(x, t, MutationNotStarted) && Step(x, Continue(t, cid, lid)).st != x.st
    ensures var pc := x.threads[t];
            var y := Step(x, Continue(t, cid, lid));
            && Settled(x.st, y.st, pc.c.actionId, pc.version, ReconciliationRequired, MutationNotStarted)
            && !WroteBy(Run(y, fs).st, pc.c.actionId)
  {
    var y, id := Step(x, Continue(t, cid, lid)), x.threads[t].c.actionId;
    NotStartedNow(x, t, cid, lid);
    NeverAfterwards(y, fs, id);
  }

  lemma NotStartedNow(x: Sys, t: nat, cid: ConfirmationId, lid: LeaseId)
    requires SysInv(x) && Concluding(x, t, MutationNotStarted) && Step(x, Continue(t, cid, lid)).st != x.st
    ensures var pc := x.threads[t];
            var y := Step(x, Continue(t, cid, lid));
            && Settled(x.st, y.st, pc.c.actionId, pc.version, ReconciliationRequired, MutationNotStarted)
            && Unwritable(y, pc.c.actionId)
  {
    ConcludingSettles(x, t, cid, lid, MutationNotStarted);
    StepKeeps(x, Continue(t, cid, lid));
    NotStartedYet(x, Step(x, Continue(t, cid, lid)).st, t);
    UnwritableWhen(Step(x, Continue(t, cid, lid)), x.threads[t].c.actionId);
  }

  lemma UnwritableWhen(y: Sys, id: ActionId)
    requires SysInv(y) && id in y.st.actions && !WroteBy(y.st, id) && y.st.actions[id].state == ReconciliationRequired
    ensures Unwritable(y, id)
  {
  }

  lemma NotStartedYet(x: Sys, s: State, t: nat)
    requires SysInv(x) && Concluding(x, t, MutationNotStarted)
    requires var pc := x.threads[t];
             Settled(x.st, s, pc.c.actionId, pc.version, ReconciliationRequired, MutationNotStarted)
    ensures !WroteBy(s, x.threads[t].c.actionId)
  {
    var pc := x.threads[t];
    assert PcOk(x.st, pc);
    SettledUnwritten(x.st, s, pc.c.actionId, pc.version);
  }

  /** SUCCEEDED is recorded only when the requested content is durable as the
      revision right after the authorized one; the plan is not touched. */
  lemma SucceededMeansLanded(max: nat, t0: Time, es: seq<Event>, t: nat, cid: ConfirmationId, lid: LeaseId)
    requires var x := After(max, t0, es);
             Concluding(x, t, MutationSucceeded) && Step(x, Continue(t, cid, lid)).st != x.st
    ensures var x := After(max, t0, es);
            var pc := x.threads[t];
            && Settled(x.st, Step(x, Continue(t, cid, lid)).st, pc.c.actionId, pc.version,
                       ExecutedPendingVerification, MutationSucceeded)
            && pc.c.actionId in x.st.decisions && pc.c.fields == x.st.decisions[pc.c.actionId].Mutation()
            && exists p :: Logged(x.st.log, pc.c.target, p) && Carries(p, pc.c.fields)
                           && p.revision == x.st.decisions[pc.c.actionId].identity.targetRevision + 1
  {
    var x := After(max, t0, es);
    Past(max, t0, es);
    ConcludingSettles(x, t, cid, lid, MutationSucceeded);
    ConcludedLanded(x, t);
  }

  lemma ConcludedLanded(x: Sys, t: nat)
    requires SysInv(x) && Concluding(x, t, MutationSucceeded)
    ensures var pc := x.threads[t];
            && pc.c.actionId in x.st.decisions && pc.c.fields == x.st.decisions[pc.c.actionId].Mutation()
            && exists p :: Logged(x.st.log, pc.c.target, p) && Carries(p, pc.c.fields)
                           && p.revision == x.st.decisions[pc.c.actionId].identity.targetRevision + 1
  {
    var pc := x.threads[t];
    assert PcOk(x.st, pc);
    assert ActionOk(x.st, pc.c.actionId);
    var a := x.st.actions[pc.c.actionId];
    var p :| Logged(x.st.log, a.target, p) && p.revision == a.planRevision + 1 && Carries(p, pc.c.fields);
  }

  // ----- who wrote what was concluded ---------------------------------------

  /** Write `i` is the revision right after the one the action was authorized
      for.  Its author is an update action that was authorized for the very same
      plan. */
  ghost predicate WriterAt(s: State, id: ActionId, i: nat)
    requires id in s.actions && id in s.decisions
  {
    && i < |s.log| && s.log[i].target == s.actions[id].target
    && s.log[i].after.revision == s.actions[id].planRevision + 1
    && Carries(s.log[i].after, s.decisions[id].Mutation())
    && s.log[i].author.By?
    && var j := s.log[i].author.action;
       && j in s.actions && j in s.decisions && s.actions[j].operation == UpdateProjectPlan
       && s.actions[j].target == s.actions[id].target && s.actions[j].planRevision == s.actions[id].planRevision
       && s.decisions[j].identity.targetDigest == s.decisions[id].identity.targetDigest
  }

  /** Another update action that was authorized for the same revision. */
  predicate Rival(s: State, id: ActionId, j: ActionId)
    requires id in s.actions
  {
    && j != id && j in s.actions && s.actions[j].operation == UpdateProjectPlan
    && s.actions[j].target == s.actions[id].target && s.actions[j].planRevision == s.actions[id].planRevision
  }

  lemma LandedHasWriter(s: State, id: ActionId) returns (i: nat)
    requires Inv(s) && id in s.actions && id in s.decisions && Landed(s, s.actions[id], s.decisions[id].Mutation())
    ensures WriterAt(s, id, i)
  {
    var a, d := s.actions[id], s.decisions[id];
    assert ActionOk(s, id);
    LoggedIsStaging(s.plans, s.log, a.target, d.identity.targetDigest);
    var p :| Logged(s.log, a.target, p) && p.revision == a.planRevision + 1 && Carries(p, d.Mutation());
    i :| 0 <= i < |s.log| && s.log[i].target == a.target && s.log[i].after == p;
    assert WriteOk(s.log[i]) && AuthoredOk(s, s.log[i]);
    AuthorizedAlike(s, id, i);
  }

  lemma AuthorizedAlike(s: State, id: ActionId, i: nat)
    requires Inv(s) && id in s.actions && ActionOk(s, id) && i < |s.log| && s.log[i].author.By?
    requires s.log[i].target == s.actions[id].target && s.log[i].after.revision == s.actions[id].planRevision + 1
    ensures var j := s.log[i].author.action;
            && j in s.actions && j in s.decisions && s.actions[j].operation == UpdateProjectPlan
            && s.actions[j].target == s.actions[id].target && s.actions[j].planRevision == s.actions[id].planRevision
            && s.decisions[j].identity.targetDigest == s.decisions[id].identity.targetDigest
  {
    var j := s.log[i].author.action;
    assert AuthoredOk(s, s.log[i]) && ActionOk(s, j);
    RevisionPinsPlan(s.log, s.actions[id].target, s.decisions[j].identity.targetDigest,
                     s.decisions[id].identity.targetDigest);
  }

  /** A write by an action, or by a rival of it, is that one write. */
  lemma SameRevisionSameWrite(s: State, id: ActionId, i: nat, j: ActionId)
    requires Inv(s) && id in s.actions && id in s.decisions && WriterAt(s, id, i) && WroteBy(s, j)
    requires j == id || Rival(s, id, j)
    ensures s.log[i].author == By(j)
  {
    var k :| 0 <= k < |s.log| && s.log[k].author == By(j);
    assert AuthoredOk(s, s.log[k]);
  }

  /** No other write produced that revision. */
  predicate OnlyWrite(log: seq<Write>, i: nat)
    requires i < |log|
  {
    forall k :: 0 <= k < |log| && log[k].target == log[i].target && log[k].after.revision == log[i].after.revision ==>
                  k == i
  }

  /** Once the requested content is durable, exactly one write put it there; the
      action itself wrote it if and only if no rival did. */
  ghost predicate Attributed(s: State, id: ActionId)
    requires id in s.actions && id in s.decisions
  {
    && (exists i: nat :: WriterAt(s, id, i) && OnlyWrite(s.log, i))
    && (WroteBy(s, id) <==> forall j :: Rival(s, id, j) ==> !WroteBy(s, j))
    && ((forall j :: !Rival(s, id, j)) ==> WroteBy(s, id))
  }

  lemma LandedIsAttributed(s: State, id: ActionId)
    requires Inv(s) && id in s.actions && id in s.decisions && Landed(s, s.actions[id], s.decisions[id].Mutation())
    ensures Attributed(s, id)
  {
    var i := LandedHasWriter(s, id);
    var w := s.log[i].author.action;
    assert OnlyWrite(s.log, i);
    assert WroteBy(s, w) && (w == id || Rival(s, id, w));
    forall j | (j == id || Rival(s, id, j)) && WroteBy(s, j) ensures j == w { SameRevisionSameWrite(s, id, i, j); }
  }

  /** Whenever SUCCEEDED is about to be concluded in a run, whether or not it
      will then be recorded: the content was written once, by an update action
      authorized for the very same plan. */
  lemma SuccessIsAttributed(max: nat, t0: Time, es: seq<Event>, t: nat)
    requires Concluding(After(max, t0, es), t, MutationSucceeded)
    ensures var x := After(max, t0, es);
            var id := x.threads[t].c.actionId;
            id in x.st.actions && id in x.st.decisions && Attributed(x.st, id)
  {
    Past(max, t0, es);
    SuccessAttributedIn(After(max, t0, es), t);
  }

  lemma SuccessAttributedIn(x: Sys, t: nat)
    requires SysInv(x) && Concluding(x, t, MutationSucceeded)
    ensures var id := x.threads[t].c.actionId; id in x.st.actions && id in x.st.decisions && Attributed(x.st, id)
  {
    assert PcOk(x.st, x.threads[t]);
    LandedIsAttributed(x.st, x.threads[t].c.actionId);
  }

  // ----- a recorded success is always another action's ------------------------

  lemma RunningNeverWrote(s: State, id: ActionId)
    requires Inv(s) && id in s.actions && s.actions[id].state == Running
    ensures !WroteBy(s, id)
  {
    forall i | 0 <= i < |s.log| ensures s.log[i].author != By(id) { assert AuthoredOk(s, s.log[i]); }
  }

  /** When recording SUCCEEDED goes through. */
  predicate Recordable(s: State, id: ActionId, version: nat, now: Time) {
    && id in s.actions && s.actions[id].state == Running
    && s.actions[id].version == version && now < s.actions[id].expiresAt
  }

  lemma SettleNeedsVersion(s: State, c: Contract, version: nat, now: Time)
    requires c.actionId in s.actions && s.actions[c.actionId].version != version
    ensures Settle(s, c, version, MutationSucceeded, now).state == s
  {
  }

  lemma RecordsWhen(s: State, c: Contract, version: nat, now: Time)
    requires Inv(s) && c.actionId in s.actions
    ensures Settle(s, c, version, MutationSucceeded, now).state != s <==> Recordable(s, c.actionId, version, now)
  {
    assert ActionOk(s, c.actionId);
    if s.actions[c.actionId].version != version {
      SettleNeedsVersion(s, c, version, now);
    } else {
      SettleIs(s, c, MutationSucceeded, now);
      SettledIsNew(s, c, MutationSucceeded);
      SettleableWhen(s.actions[c.actionId], MutationSucceeded);
    }
  }

  lemma RecordsIn(x: Sys, t: nat, cid: ConfirmationId, lid: LeaseId)
    requires SysInv(x) && Concluding(x, t, MutationSucceeded)
    ensures var pc := x.threads[t];
            Step(x, Continue(t, cid, lid)).st != x.st <==> Recordable(x.st, pc.c.actionId, pc.version, pc.now)
  {
    var pc := x.threads[t];
    assert PcOk(x.st, pc);
    SettleStepIs(x, t, cid, lid);
    RecordsWhen(x.st, pc.c, pc.version, pc.now);
  }

  /** A conclusion SUCCEEDED is recorded if and only if the action is still
      RUNNING, at the version that was read, and not expired; otherwise the call
      is refused and nothing changes. */
  lemma SuccessIsRecordedWhen(max: nat, t0: Time, es: seq<Event>, t: nat, cid: ConfirmationId, lid: LeaseId)
    requires Concluding(After(max, t0, es), t, MutationSucceeded)
    ensures var x := After(max, t0, es);
            var pc := x.threads[t];
            Step(x, Continue(t, cid, lid)).st != x.st <==> Recordable(x.st, pc.c.actionId, pc.version, pc.now)
  {
    Past(max, t0, es);
    RecordsIn(After(max, t0, es), t, cid, lid);
  }

  /** The content of the action is the one write of a rival. */
  ghost predicate RivalLanded(s: State, id: ActionId)
    requires id in s.actions && id in s.decisions
  {
    && !WroteBy(s, id)
    && exists i: nat :: WriterAt(s, id, i) && OnlyWrite(s.log, i) && Rival(s, id, s.log[i].author.action)
  }

  lemma RunningLandedByRival(s: State, id: ActionId)
    requires Inv(s) && id in s.actions && id in s.decisions && Attributed(s, id) && s.actions[id].state == Running
    ensures RivalLanded(s, id)
  {
    RunningNeverWrote(s, id);
    var i: nat :| WriterAt(s, id, i) && OnlyWrite(s.log, i);
    assert WroteBy(s, s.log[i].author.action);
  }

  lemma SettledUnwritable(x: Sys, y: Sys, id: ActionId, version: nat)
    requires SysInv(y) && Settled(x.st, y.st, id, version, ExecutedPendingVerification, MutationSucceeded)
    requires !WroteBy(x.st, id)
    ensures Unwritable(y, id)
  {
  }

  lemma AnothersNow(x: Sys, t: nat, cid: ConfirmationId, lid: LeaseId)
    requires SysInv(x) && Concluding(x, t, MutationSucceeded) && Step(x, Continue(t, cid, lid)).st != x.st
    ensures var id := x.threads[t].c.actionId;
            && id in x.st.actions && id in x.st.decisions && x.st.actions[id].state == Running
            && RivalLanded(x.st, id) && Unwritable(Step(x, Continue(t, cid, lid)), id)
  {
    var pc := x.threads[t];
    RecordsIn(x, t, cid, lid);
    SuccessAttributedIn(x, t);
    RunningLandedByRival(x.st, pc.c.actionId);
    ConcludingSettles(x, t, cid, lid, MutationSucceeded);
    StepKeeps(x, Continue(t, cid, lid));
    SettledUnwritable(x, Step(x, Continue(t, cid, lid)), pc.c.actionId, pc.version);
  }

  /** Every SUCCEEDED that reconciliation records is for an action that was still
      RUNNING: it wrote nothing, never will, and the content it is credited with
      is the one write of a rival. */
  lemma SuccessIsAnothers(max: nat, t0: Time, es: seq<Event>, fs: seq<Event>, t: nat, cid: ConfirmationId, lid: LeaseId)
    requires var x := After(max, t0, es);
             Concluding(x, t, MutationSucceeded) && Step(x, Continue(t, cid, lid)).st != x.st
    ensures var x := After(max, t0, es);
            var id := x.threads[t].c.actionId;
            && id in x.st.actions && id in x.st.decisions && x.st.actions[id].state == Running
            && RivalLanded(x.st, id) && !WroteBy(Run(Step(x, Continue(t, cid, lid)), fs).st, id)
  {
    var x := After(max, t0, es);
    Past(max, t0, es);
    AnothersNow(x, t, cid, lid);
    NeverAfterwards(Step(x, Continue(t, cid, lid)), fs, x.threads[t].c.actionId);
  }

  lemma WriteStays(s: State, t: State, id: ActionId)
    requires Evolves(s, t) && WroteBy(s, id)
    ensures WroteBy(t, id)
  {
    var i :| 0 <= i < |s.log| && s.log[i].author == By(id);
    assert t.log[i] == s.log[i];
  }

  lemma WriterNotCreditedIn(y: Sys, t: nat, cid: ConfirmationId, lid: LeaseId)
    requires SysInv(y) && Concluding(y, t, MutationSucceeded) && WroteBy(y.st, y.threads[t].c.actionId)
    ensures Step(y, Continue(t, cid, lid)).st == y.st
  {
    RecordsIn(y, t, cid, lid);
    if Step(y, Continue(t, cid, lid)).st != y.st { RunningNeverWrote(y.st, y.threads[t].c.actionId); }
  }

  /** The other way round: an action that did write is never recorded as
      SUCCEEDED by reconciliation, then or later. */
  lemma WriterIsNeverCredited(max: nat, t0: Time, es: seq<Event>, fs: seq<Event>, id: ActionId, t: nat,
                              cid: ConfirmationId, lid: LeaseId)
    requires WroteBy(After(max, t0, es).st, id)
    requires var y := Run(After(max, t0, es), fs); Concluding(y, t, MutationSucceeded) && y.threads[t].c.actionId == id
    ensures var y := Run(After(max, t0, es), fs); Step(y, Continue(t, cid, lid)).st == y.st
  {
    Future(max, t0, es, fs);
    WriteStays(After(max, t0, es).st, Run(After(max, t0, es), fs).st, id);
    WriterNotCreditedIn(Run(After(max, t0, es), fs), t, cid, lid);
  }

  /** In particular nothing is recorded for an action without rivals, however
      its outcome came to be unknown. */
  lemma WithoutRivalsNothingIsRecorded(max: nat, t0: Time, es: seq<Event>, t: nat, cid: ConfirmationId, lid: LeaseId)
    requires var x := After(max, t0, es);
             && Concluding(x, t, MutationSucceeded)
             && var id := x.threads[t].c.actionId;
                id in x.st.actions && forall j :: !Rival(x.st, id, j)
    ensures var x := After(max, t0, es); Step(x, Continue(t, cid, lid)).st == x.st
  {
    var x := After(max, t0, es);
    SuccessIsAttributed(max, t0, es, t);
    Past(max, t0, es);
    WriterNotCreditedIn(x, t, cid, lid);
  }

  // ----- one snapshot, one lease, one start --------------------------------

  /** The action enters the lifecycle state between these two. */
  predicate Enters(before: map<ActionId, Action>, after: map<ActionId, Action>, id: ActionId, st: LifecycleState) {
    id in after && after[id].state == st && (id !in before || before[id].version != after[id].version)
  }

  /** How often the action enters a lifecycle state during a run. */
  function Entries(x: Sys, es: seq<Event>, id: ActionId, st: LifecycleState): nat
    decreases |es|
  {
    if es == [] then 0 else
    Entries(x, es[..|es| - 1], id, st) +
    (if Enters(Run(x, es[..|es| - 1]).st.actions, Run(x, es).st.actions, id, st) then 1 else 0)
  }

  /** A state that was entered cannot be entered again. */
  lemma EntersOnce(before: map<ActionId, Action>, after: map<ActionId, Action>, id: ActionId, st: LifecycleState,
                   n: nat)
    requires id in before ==> id in after && ActionEvolves(before[id], after[id])
    requires n <= 1 && (n == 1 ==> id in before && Rank(before[id].state) <= Rank(st))
    ensures var m := n + (if Enters(before, after, id, st) then 1 else 0);
            m <= 1 && (m == 1 ==> id in after && Rank(after[id].state) <= Rank(st))
  {
  }

  lemma {:induction false} EntryIsLast(x: Sys, es: seq<Event>, id: ActionId, st: LifecycleState)
    requires SysInv(x)
    ensures Entries(x, es, id, st) <= 1
    ensures Entries(x, es, id, st) == 1 ==>
              id in Run(x, es).st.actions && Rank(Run(x, es).st.actions[id].state) <= Rank(st)
    decreases |es|
  {
    if es == [] { return; }
    var before := es[..|es| - 1];
    EntryIsLast(x, before, id, st);
    RunKeeps(x, before);
    StepKeeps(Run(x, before), es[|es| - 1]);
    assert IdEvolves(Run(x, before).st, Run(x, es).st, id);
    EntersOnce(Run(x, before).st.actions, Run(x, es).st.actions, id, st, Entries(x, before, id, st));
  }

  /** Every action enters every lifecycle state at most once, makes at most
      eleven transitions, is captured at most once, and holds at most one
      lease, always with fencing token 1 and never replaced. */
  lemma EverythingHappensOnce(max: nat, t0: Time, es: seq<Event>, fs: seq<Event>, id: ActionId)
    ensures
      var s, t := After(max, t0, es).st, Run(After(max, t0, es), fs).st;
      && (forall st :: Entries(Start(max, t0), es, id, st) <= 1)
      && (id in t.actions ==> t.actions[id].version <= 11)
      && (forall i, j :: 0 <= i < j < |t.snapshots| ==> t.snapshots[i].actionId != t.snapshots[j].actionId)
      && (id in t.leases ==> t.leases[id].fencingToken == 1)
      && (id in s.leases ==> id in t.leases && t.leases[id].(granted := s.leases[id].granted) == s.leases[id])
  {
    InitialOk(max, t0);
    forall st ensures Entries(Start(max, t0), es, id, st) <= 1 { EntryIsLast(Start(max, t0), es, id, st); }
    Future(max, t0, es, fs);
    OnePerAction(After(max, t0, es).st, Run(After(max, t0, es), fs).st, id);
  }

  lemma OnePerAction(s: State, t: State, id: ActionId)
    requires Inv(t) && Evolves(s, t)
    ensures id in t.actions ==> t.actions[id].version <= 11
    ensures forall i, j :: 0 <= i < j < |t.snapshots| ==> t.snapshots[i].actionId != t.snapshots[j].actionId
    ensures id in t.leases ==> t.leases[id].fencingToken == 1
    ensures id in s.leases ==> id in t.leases && t.leases[id].(granted := s.leases[id].granted) == s.leases[id]
  {
    if id in t.actions { assert ActionOk(t, id); }
    assert IdEvolves(s, t, id);
  }

  // ----- authority windows ------------------------------------------------

  /** Every action's window is its decision's: it ends within five minutes of
      the decision and no later than the plan that was judged; every
      confirmation's window is non-empty and ends within it. */
  predicate ActionWindowOk(s: State, id: ActionId)
    requires id in s.actions
  {
    && id in s.decisions
    && var d := s.decisions[id];
       && d.decidedAt < d.expiresAt == s.actions[id].expiresAt
       && d.expiresAt <= d.decidedAt + DECISION_TTL && d.expiresAt <= d.planExpiresAt
  }

  predicate BindingWindowOk(s: State, c: ConfirmationId)
    requires c in s.bindings
  {
    && s.bindings[c].actionId in s.decisions
    && s.bindings[c].createdAt < s.bindings[c].expiresAt <= s.decisions[s.bindings[c].actionId].expiresAt
  }

  ghost predicate WindowsOk(s: State) {
    (forall id :: id in s.actions ==> ActionWindowOk(s, id)) && (forall c :: c in s.bindings ==> BindingWindowOk(s, c))
  }

  lemma ActionInWindow(s: State, id: ActionId)
    requires id in s.actions && ActionOk(s, id)
    ensures ActionWindowOk(s, id)
  {
  }

  lemma InvWindowsOk(s: State)
    requires Inv(s)
    ensures WindowsOk(s)
  {
    forall id | id in s.actions ensures ActionWindowOk(s, id) { ActionInWindow(s, id); }
    forall c | c in s.bindings ensures BindingWindowOk(s, c) { assert BindingOk(s.decisions, s.bindings[c]); }
  }

  lemma WindowsNest(max: nat, t0: Time, es: seq<Event>)
    ensures WindowsOk(After(max, t0, es).st)
  {
    Past(max, t0, es);
    InvWindowsOk(After(max, t0, es).st);
  }

  /** The contract carries the window of the decision and the only lease token. */
  predicate InWindow(s: State, c: Contract) {
    && c.actionId in s.actions && c.actionId in s.decisions
    && c.expiresAt == s.decisions[c.actionId].expiresAt && c.fencingToken == 1
    && c.expectedDigest == s.decisions[c.actionId].identity.targetDigest
    && c.expectedRevision == c.expectedDigest.revision
  }

  /** So does every contract that is built anywhere in a run, for an execution,
      a rollback or a reconciliation. */
  lemma ContractsStayInWindow(max: nat, t0: Time, es: seq<Event>, id: ActionId, cid: ConfirmationId, now: Time)
    ensures var s := After(max, t0, es).st;
            && (ContractForAction(s, id, cid, now).Ok? ==> InWindow(s, ContractForAction(s, id, cid, now).value))
            && (ContractForReconcile(s, id, cid).Ok? ==> InWindow(s, ContractForReconcile(s, id, cid).value))
            && (id in s.actions && ContractForRollback(s, id, cid, now).Ok? ==>
                  InWindow(s, ContractForRollback(s, id, cid, now).value))
  {
    Past(max, t0, es);
    var s := After(max, t0, es).st;
    if id in s.actions {
      assert ActionOk(s, id);
      ContractsInWindow(s, id, cid, now);
    }
  }

  lemma ContractsInWindow(s: State, id: ActionId, cid: ConfirmationId, now: Time)
    requires id in s.actions && ActionOk(s, id)
    ensures ContractForAction(s, id, cid, now).Ok? ==> InWindow(s, ContractForAction(s, id, cid, now).value)
    ensures ContractForReconcile(s, id, cid).Ok? ==> InWindow(s, ContractForReconcile(s, id, cid).value)
    ensures ContractForRollback(s, id, cid, now).Ok? ==> InWindow(s, ContractForRollback(s, id, cid, now).value)
  {
  }

  // ----- kill switch ------------------------------------------------------

  lemma StepSwitches(x: Sys, e: Event)
    ensures Step(x, e).st.switches == if e.ChangeSwitch? then Apply(x.st.switches, e.change) else x.st.switches
  {
    if !e.ChangeSwitch? { F.SwitchesStay(x, e); }
  }

  /** The operator verbs among a run's events. */
  function Changes(es: seq<Event>): seq<Change> {
    if es == [] then [] else
    Changes(es[..|es| - 1]) + (if es[|es| - 1].ChangeSwitch? then [es[|es| - 1].change] else [])
  }

  lemma {:induction false} RunSwitches(x: Sys, es: seq<Event>)
    ensures Run(x, es).st.switches == ApplyAll(x.st.switches, Changes(es))
    decreases |es|
  {
    if es == [] { return; }
    var before, e := es[..|es| - 1], es[|es| - 1];
    RunSwitches(x, before);
    StepSwitches(Run(x, before), e);
    if e.ChangeSwitch? { ApplyAllAppend(x.st.switches, Changes(before), e.change); }
    else { assert Changes(before) + [] == Changes(before); }
  }

  /** The contract carries the epoch of its time, and the gate compares it. */
  lemma GateSeesEpoch(s: State, t: State, id: ActionId, cid: ConfirmationId, at: Time, now: Time)
    requires Inv(s) && ContractForAction(s, id, cid, at).Ok?
    requires Evaluate(t, ContractForAction(s, id, cid, at).value, now) == GateAllowed
    ensures SwitchFor(t.switches, Staging).epoch == SwitchFor(s.switches, Staging).epoch
    ensures SwitchFor(t.switches, Staging).state == Disengaged
  {
    assert ActionOk(s, id);
    AllowedMeans(t, ContractForAction(s, id, cid, at).value, now);
  }

  /** A contract built at one point of a run passes the gate at a later one only
      if no change of the staging switch was carried out in between, so it is
      disengaged exactly as it was when the contract was built. */
  lemma GateIsAbaFree(max: nat, t0: Time, es: seq<Event>, fs: seq<Event>, id: ActionId, cid: ConfirmationId,
                      at: Time, now: Time)
    requires var x := After(max, t0, es);
             && ContractForAction(x.st, id, cid, at).Ok?
             && Evaluate(Run(x, fs).st, ContractForAction(x.st, id, cid, at).value, now) == GateAllowed
    ensures var x := After(max, t0, es);
            && Effective(x.st.switches, Changes(fs)) == 0
            && SwitchFor(Run(x, fs).st.switches, Staging) == SwitchFor(x.st.switches, Staging)
            && SwitchFor(x.st.switches, Staging).state == Disengaged
  {
    var x := After(max, t0, es);
    Past(max, t0, es);
    GateSeesEpoch(x.st, Run(x, fs).st, id, cid, at, now);
    RunSwitches(x, fs);
    SameEpochSameSwitch(x.st.switches, Changes(fs));
  }

  // ----- idempotency ------------------------------------------------------

  /** The index agrees with a scan of the stored actions in every run. */
  lemma IndexAgreesWithScan(max: nat, t0: Time, es: seq<Event>, key: Key)
    ensures var s := After(max, t0, es).st;
            && (FindByKey(s, key).None? <==> forall id :: id in s.actions ==> s.actions[id].IndexKey() != key)
            && (forall id :: id in s.actions && s.actions[id].IndexKey() == key ==>
                FindByKey(s, key) == Some(s.actions[id]))
  {
    Past(max, t0, es);
  }

  /** An allowed decision is on record under its key. */
  lemma AllowedIsStored(s: State, k: Call, refs: Option<Refs>)
    requires IndexOk(s.actions, s.index)
    requires var r := Authorize(s, k, refs).result; r.Ok? && r.value.Allowed?
    ensures var t := Authorize(s, k, refs).state;
            var d := Authorize(s, k, refs).result.value.decision;
            var key := k.request.IndexKey();
            && key in t.index && t.index[key] in t.decisions && t.decisions[t.index[key]] == d && d.request == k.request
  {
    if FindByKey(s, k.request.IndexKey()).None? { RegisteredWindow(s, k, refs); }
  }

  /** What a call under a key that is bound to `d` is answered. */
  function Answer(s: State, k: Call, d: Decision): Result<Verdict> {
    if !Permits(s.switches, k.request.environment) then Err(UnavailableTarget)
    else if k.request == d.request then Ok(Allowed(d))
    else Err(IdempotencyConflict)
  }

  lemma StoredIsReplayed(s: State, k: Call, refs: Option<Refs>)
    requires IndexOk(s.actions, s.index)
    requires var key := k.request.IndexKey(); key in s.index && s.index[key] in s.decisions
    ensures Authorize(s, k, refs) == Reply(s, Answer(s, k, s.decisions[s.index[k.request.IndexKey()]]))
  {
  }

  lemma KeyStaysBound(y: Sys, fs: seq<Event>, key: Key, l: Call, refs: Option<Refs>)
    requires SysInv(y) && key in y.st.index && y.st.index[key] in y.st.decisions && l.request.IndexKey() == key
    ensures var s := Run(y, fs).st; Authorize(s, l, refs) == Reply(s, Answer(s, l, y.st.decisions[y.st.index[key]]))
  {
    RunKeeps(y, fs);
    var s := Run(y, fs).st;
    assert KeyEvolves(y.st, s, key) && IdEvolves(y.st, s, y.st.index[key]);
    StoredIsReplayed(s, l, refs);
  }

  /** Once a request, for an update or a rollback, has been allowed under a key
      by any event, every later call with that key gets the very same decision
      if it asks for the same, and a conflict if it asks for anything else;
      neither changes anything. */
  lemma OneDecisionPerKey(max: nat, t0: Time, es: seq<Event>, e: Event, k: Call, refs: Option<Refs>,
                          fs: seq<Event>, l: Call, others: Option<Refs>)
    requires l.request.IndexKey() == k.request.IndexKey()
    requires var x := After(max, t0, es);
             var r := Authorize(x.st, k, refs);
             r.result.Ok? && r.result.value.Allowed? && Step(x, e).st == r.state
    ensures var x := After(max, t0, es);
            var d := Authorize(x.st, k, refs).result.value.decision;
            var s := Run(Step(x, e), fs).st;
            d.request == k.request && Authorize(s, l, others) == Reply(s, Answer(s, l, d))
  {
    var x := After(max, t0, es);
    Past(max, t0, es);
    StepKeeps(x, e);
    AllowedIsStored(x.st, k, refs);
    KeyStaysBound(Step(x, e), fs, k.request.IndexKey(), l, others);
  }

  /** The events that ask are such events: a request, and a rollback that is
      planned as safe. */
  lemma AskingIsAuthorizing(x: Sys, k: Call, n: nat, original: ActionId, planned: nat)
    ensures Step(x, AuthorizeRequest(k, n)).st ==
            Authorize(x.st, k.(seen := Observed(x.st, k.request.target, n)), None).state
    ensures original in x.st.actions && original in x.st.decisions ==>
      var o, snap := x.st.actions[original], SnapshotFor(x.st, original);
      var current := Observed(x.st, o.target, planned);
      && snap.Some? && current.Some?
      && PlanRollback(o, snap, current.value, x.st.decisions[original].Mutation()) == Safe ==>
        Step(x, RequestRollback(k, original, planned, n)).st ==
        Authorize(x.st, k.(request := RollbackRequest(o), seen := Observed(x.st, o.target, n)),
                  Some(Refs(original, snap.value.id))).state
  {
  }

  lemma SameKeySameAction(s: State, a: ActionId, b: ActionId)
    requires IndexOk(s.actions, s.index) && a in s.actions && b in s.actions
    requires s.actions[a].IndexKey() == s.actions[b].IndexKey()
    ensures a == b
  {
  }

  /** There is at most one rollback action per original, now and ever after, and
      its decision stands. */
  lemma OneRollbackPerOriginal(max: nat, t0: Time, es: seq<Event>, fs: seq<Event>, a: ActionId, b: ActionId,
                               original: ActionId)
    requires var s, t := After(max, t0, es).st, Run(After(max, t0, es), fs).st;
             && a in s.actions && s.actions[a].rollbackOf == Some(original)
             && b in t.actions && t.actions[b].rollbackOf == Some(original)
    ensures var s, t := After(max, t0, es).st, Run(After(max, t0, es), fs).st;
            && a == b && a in s.decisions && a in t.decisions && t.decisions[a] == s.decisions[a]
  {
    Future(max, t0, es, fs);
    OneRollback(After(max, t0, es).st, Run(After(max, t0, es), fs).st, a, b, original);
  }

  lemma OneRollback(s: State, t: State, a: ActionId, b: ActionId, original: ActionId)
    requires Inv(s) && Inv(t) && Evolves(s, t)
    requires a in s.actions && s.actions[a].rollbackOf == Some(original)
    requires b in t.actions && t.actions[b].rollbackOf == Some(original)
    ensures a == b && a in s.decisions && a in t.decisions && t.decisions[a] == s.decisions[a]
  {
    assert IdEvolves(s, t, a) && ActionOk(s, a);
    assert s.actions[a].Fixed() == t.actions[a].Fixed();
    assert t.actions[a].Fixed().rollbackOf == t.actions[a].rollbackOf == Some(original);
    assert ActionOk(t, a) && ActionOk(t, b);
    SameKeySameAction(t, a, b);
  }
}
