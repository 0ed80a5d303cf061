/** Startup recovery (control_plane/recovery.py) and the bounded sweep over the
    actions that are not finished (control_plane/recovery_sweep.py). */
module Recovery {
  import opened Types
  import opened Lifecycle
  import opened Repository
  import S = Store

  datatype Advice =
    | TerminalNoAction | PreLeaseStale | ReadyForExecution | LeaseActiveReady
    | LeaseExpiredReconcile | ReconcileRequired | OutcomeMarkerMissing
    | VerificationResumable | RollbackResumable | UnrecognizedState

  datatype Recovered = Recovered(id: ActionId, state: LifecycleState, moved: bool, outcome: Option<Outcome>,
                                 advice: Advice)

  const RECOVERY_ACTOR: Subject := 0

  /** The advice for an action that recovery leaves where it is. */
  function Advise(a: Action, outcome: Option<Outcome>): Recovered {
    match a.state
    case VerifiedSuccess => Recovered(a.id, a.state, false, None, TerminalNoAction)
    case RolledBack => Recovered(a.id, a.state, false, None, TerminalNoAction)
    case RollbackFailed => Recovered(a.id, a.state, false, None, TerminalNoAction)
    case ExecutionFailed => Recovered(a.id, a.state, false, None, TerminalNoAction)
    case Rejected => Recovered(a.id, a.state, false, None, TerminalNoAction)
    case Expired => Recovered(a.id, a.state, false, None, TerminalNoAction)
    case Invalidated => Recovered(a.id, a.state, false, None, TerminalNoAction)
    case Requested => Recovered(a.id, a.state, false, None, PreLeaseStale)
    case Planned => Recovered(a.id, a.state, false, None, PreLeaseStale)
    case ConfirmationRequired => Recovered(a.id, a.state, false, None, PreLeaseStale)
    case SnapshotCaptured => Recovered(a.id, a.state, false, None, ReadyForExecution)
    case Leased => Recovered(a.id, a.state, false, None, LeaseActiveReady)
    case Running =>
      Recovered(a.id, a.state, false, Some(UnknownOutcome),
                if outcome == Some(UnknownOutcome) then ReconcileRequired else OutcomeMarkerMissing)
    case ExecutedPendingVerification => Recovered(a.id, a.state, false, None, VerificationResumable)
    case RollbackRequested => Recovered(a.id, a.state, false, None, RollbackResumable)
    case ReconciliationRequired => Recovered(a.id, a.state, false, Some(UnknownOutcome), ReconcileRequired)
    case _ => Recovered(a.id, a.state, false, None, UnrecognizedState)
  }

  function OutcomeOf(s: S.State, id: ActionId): Option<Outcome> {
    if id in s.outcomes then Some(s.outcomes[id]) else None
  }

  /** `recover`: a decision table with one write. */
  function Recover(s: S.State, id: ActionId, now: Time): S.Reply<Recovered> {
    if id !in s.actions then S.Reply(s, Err(InvalidRequest)) else
    var a := s.actions[id];
    if a.state == Leased && S.ActiveLease(s, id, now).None? then
      var r := S.AdvanceAction(s, id, a.version, ReconciliationRequired, RECOVERY_ACTOR, now);
      S.Reply(r.state, if r.result.Err? then Err(r.result.error)
                       else Ok(Recovered(id, ReconciliationRequired, true, Some(MutationNotStarted),
                                         LeaseExpiredReconcile)))
    else S.Reply(s, Ok(Advise(a, OutcomeOf(s, id))))
  }

  /** Leased, without a live lease. */
  predicate Abandoned(s: S.State, id: ActionId, now: Time) {
    id in s.actions && s.actions[id].state == Leased && S.ActiveLease(s, id, now).None?
  }

  predicate Movable(s: S.State, id: ActionId, now: Time) { Abandoned(s, id, now) && now < s.actions[id].expiresAt }

  function Moved(a: Action): Action { a.(state := ReconciliationRequired, version := a.version + 1) }

  /** A stored action is keyed by its id, and does not hold a state that needs
      a confirmer without one. */
  predicate RecordOk(s: S.State, id: ActionId)
    requires id in s.actions
  {
    s.actions[id].id == id && (NeedsConfirmer(s.actions[id].state) ==> s.actions[id].approver.Some?)
  }

  ghost predicate RecordsOk(s: S.State) {
    forall id {:trigger RecordOk(s, id)} :: id in s.actions ==> RecordOk(s, id)
  }

  lemma LeasedMoves(a: Action, now: Time)
    requires a.state == Leased && a.approver.Some?
    ensures var r := Advance(a, ReconciliationRequired, Some(now), Some(RECOVERY_ACTOR));
            if now < a.expiresAt then r == Ok(Moved(a)) else r.Err?
  {
  }

  /** One recovery moves exactly an abandoned, unexpired lease, fails exactly on
      an abandoned, expired one, and otherwise only reports. */
  lemma RecoverMoves(s: S.State, id: ActionId, now: Time)
    requires id in s.actions && RecordOk(s, id)
    ensures var r := Recover(s, id, now);
            && r.state == (if Movable(s, id, now) then s.(actions := s.actions[id := Moved(s.actions[id])]) else s)
            && (r.result.Err? <==> Abandoned(s, id, now) && !Movable(s, id, now))
            && (r.result.Ok? ==> r.result.value.id == id && (r.result.value.moved <==> Movable(s, id, now)))
  {
    if Abandoned(s, id, now) { LeasedMoves(s.actions[id], now); }
  }

  /** What recovery reports of an action it leaves alone.  States it does not
      know, among them CONFIRMED and VERIFICATION_FAILED, it says so of. */
  predicate Reports(a: Action, recorded: Option<Outcome>, r: Recovered) {
    var st := a.state;
    && r.id == a.id && r.state == st && !r.moved
    && r.outcome == (if st.Running? || st.ReconciliationRequired? then Some(UnknownOutcome) else None)
    && (r.advice == TerminalNoAction <==> Terminal(st) && st != RollbackUnavailable)
    && (r.advice == PreLeaseStale <==> st.Requested? || st.Planned? || st.ConfirmationRequired?)
    && (r.advice == ReadyForExecution <==> st.SnapshotCaptured?)
    && (r.advice == LeaseActiveReady <==> st.Leased?)
    && (r.advice == OutcomeMarkerMissing <==> st.Running? && recorded != Some(UnknownOutcome))
    && (r.advice == ReconcileRequired <==>
          st.ReconciliationRequired? || (st.Running? && recorded == Some(UnknownOutcome)))
    && (r.advice == VerificationResumable <==> st.ExecutedPendingVerification?)
    && (r.advice == RollbackResumable <==> st.RollbackRequested?)
    && (r.advice == UnrecognizedState <==>
          st.Confirmed? || st.VerificationFailed? || st.CancelRequested? || st.TimedOut? || st.Interrupted?
          || st.RollbackUnavailable?)
  }

  /** The answer of one recovery: of an abandoned lease, that it was moved and
      nothing had started; of everything else, a report. */
  lemma RecoverReports(s: S.State, id: ActionId, now: Time)
    requires id in s.actions && Recover(s, id, now).result.Ok?
    ensures var r := Recover(s, id, now).result.value;
            if Abandoned(s, id, now)
            then r == Recovered(id, ReconciliationRequired, true, Some(MutationNotStarted), LeaseExpiredReconcile)
            else Reports(s.actions[id], if id in s.outcomes then Some(s.outcomes[id]) else None, r)
  {
  }

  // ----- enumeration ----------------------------------------------------------

  predicate Pending(s: S.State, id: ActionId) { id in s.actions && !Terminal(s.actions[id].state) }

  /** Order of enumeration: creation time, then id. */
  predicate Before(actions: map<ActionId, Action>, x: ActionId, y: ActionId)
    requires x in actions && y in actions
  {
    actions[x].createdAt < actions[y].createdAt || (actions[x].createdAt == actions[y].createdAt && x < y)
  }

  /** The first `limit` unfinished actions, in order. */
  ghost predicate Enumerates(s: S.State, limit: nat, ids: seq<ActionId>) {
    && |ids| <= limit
    && (forall i :: 0 <= i < |ids| ==> Pending(s, ids[i]))
    && (forall i, j :: 0 <= i < j < |ids| ==> Before(s.actions, ids[i], ids[j]))
    && (forall x :: Pending(s, x) && x !in ids ==>
          |ids| == limit && forall i :: 0 <= i < |ids| ==> Before(s.actions, ids[i], x))
  }

  method First(actions: map<ActionId, Action>, candidates: set<ActionId>) returns (m: ActionId)
    requires candidates != {} && candidates <= actions.Keys
    ensures m in candidates && forall x :: x in candidates && x != m ==> Before(actions, m, x)
  {
    m :| m in candidates;
    var rest := candidates - {m};
    while rest != {}
      invariant m in candidates && m !in rest && rest <= candidates
      invariant forall x :: x in candidates && x !in rest && x != m ==> Before(actions, m, x)
      decreases |rest|
    {
      var x :| x in rest;
      rest := rest - {x};
      if Before(actions, x, m) { m := x; }
    }
  }

  method NonTerminalActionIds(r: ActionRepository, limit: nat) returns (ids: seq<ActionId>)
    ensures Enumerates(r.State(), limit, ids)
    ensures forall i, j :: 0 <= i < j < |ids| ==>
              var a, b := r.actions[ids[i]], r.actions[ids[j]];
              a.createdAt <= b.createdAt && (a.createdAt == b.createdAt ==> ids[i] < ids[j])
  {
    ids := [];
    var rest := set id | id in r.actions && !Terminal(r.actions[id].state);
    while rest != {} && |ids| < limit
      invariant |ids| <= limit
      invariant forall x :: x in rest <==> Pending(r.State(), x) && x !in ids
      invariant forall i :: 0 <= i < |ids| ==> Pending(r.State(), ids[i])
      invariant forall i, j :: 0 <= i < j < |ids| ==> Before(r.actions, ids[i], ids[j])
      invariant forall i, x :: 0 <= i < |ids| && x in rest ==> Before(r.actions, ids[i], x)
      decreases |rest|
    {
      var m := First(r.actions, rest);
      ids, rest := ids + [m], rest - {m};
    }
  }

  // ----- the sweep --------------------------------------------------------------

  datatype Failure = Failure(id: ActionId, reason: Error)

  datatype Swept = Swept(state: S.State, outcomes: seq<Recovered>, errors: seq<Failure>)

  /** The sweep over the first `n` ids; `clock(i)` is the i-th reading. */
  function SweepTo(s: S.State, ids: seq<ActionId>, clock: nat -> Time, n: nat): Swept
    requires n <= |ids|
    decreases n
  {
    if n == 0 then Swept(s, [], []) else
    SweepOne(SweepTo(s, ids, clock, n - 1), ids[n - 1], clock(n - 1))
  }

  function SweepOne(w: Swept, id: ActionId, now: Time): Swept {
    var r := Recover(w.state, id, now);
    match r.result
    case Ok(o) => Swept(r.state, w.outcomes + [o], w.errors)
    case Err(e) => Swept(r.state, w.outcomes, w.errors + [Failure(id, e)])
  }

  function Ids(os: seq<Recovered>): seq<ActionId> {
    if os == [] then [] else Ids(os[..|os| - 1]) + [os[|os| - 1].id]
  }

  function MovedIds(os: seq<Recovered>): seq<ActionId> {
    if os == [] then [] else MovedIds(os[..|os| - 1]) + (if os[|os| - 1].moved then [os[|os| - 1].id] else [])
  }

  function FailedIds(es: seq<Failure>): seq<ActionId> {
    if es == [] then [] else FailedIds(es[..|es| - 1]) + [es[|es| - 1].id]
  }

  lemma OneMore(os: seq<Recovered>, o: Recovered)
    ensures Ids(os + [o]) == Ids(os) + [o.id]
    ensures MovedIds(os + [o]) == MovedIds(os) + (if o.moved then [o.id] else [])
  {
    assert (os + [o])[..|os|] == os;
  }

  lemma OneMoreFailed(es: seq<Failure>, e: Failure)
    ensures FailedIds(es + [e]) == FailedIds(es) + [e.id]
  {
    assert (es + [e])[..|es|] == es;
  }

  datatype SweepResult = SweepResult(scanned: nat, outcomes: seq<Recovered>, errors: seq<Failure>, moved: seq<ActionId>)

  method Reconcile(r: ActionRepository, limit: int, clock: nat -> Time)
    returns (result: Result<SweepResult>, ghost ids: seq<ActionId>)
    requires r.Valid()
    modifies r
    ensures limit < 1 ==> result.Err? && r.State() == old(r.State())
    ensures limit >= 1 ==>
      && result.Ok? && Enumerates(old(r.State()), limit, ids)
      && var t := SweepTo(old(r.State()), ids, clock, |ids|);
         && r.State() == t.state && result.value.outcomes == t.outcomes && result.value.errors == t.errors
         && result.value.scanned == |ids| && result.value.moved == MovedIds(t.outcomes)
    ensures r.Valid()
  {
    ids := [];
    if limit < 1 { return Err(InvalidRequest), []; }
    var todo := NonTerminalActionIds(r, limit);
    ids := todo;
    var outcomes, errors, moved := RecoverEach(r, todo, clock);
    result := Ok(SweepResult(|outcomes| + |errors|, outcomes, errors, moved));
  }

  /** One more id of the sweep, by what recovering it answered. */
  lemma SweepGoesOn(s: S.State, todo: seq<ActionId>, clock: nat -> Time, i: nat, t: S.State, o: Result<Recovered>)
    requires i < |todo| && S.Reply(t, o) == Recover(SweepTo(s, todo, clock, i).state, todo[i], clock(i))
    ensures var w := SweepTo(s, todo, clock, i);
            SweepTo(s, todo, clock, i + 1) ==
            if o.Ok? then Swept(t, w.outcomes + [o.value], w.errors)
            else Swept(t, w.outcomes, w.errors + [Failure(todo[i], o.error)])
  {
    assert SweepTo(s, todo, clock, i + 1) == SweepOne(SweepTo(s, todo, clock, i), todo[i], clock(i));
  }

  method RecoverEach(r: ActionRepository, todo: seq<ActionId>, clock: nat -> Time)
    returns (outcomes: seq<Recovered>, errors: seq<Failure>, moved: seq<ActionId>)
    requires r.Valid()
    modifies r
    ensures Swept(r.State(), outcomes, errors) == SweepTo(old(r.State()), todo, clock, |todo|)
    ensures |outcomes| + |errors| == |todo| && moved == MovedIds(outcomes)
    ensures r.Valid()
  {
    outcomes, errors, moved := [], [], [];
    var i := 0;
    while i < |todo|
      invariant 0 <= i <= |todo|
      invariant Swept(r.State(), outcomes, errors) == SweepTo(old(r.State()), todo, clock, i)
      invariant |outcomes| + |errors| == i && moved == MovedIds(outcomes) && r.Valid()
    {
      var o := RecoverOne(r, todo[i], clock(i));
      SweepGoesOn(old(r.State()), todo, clock, i, r.State(), o);
      if o.Ok? {
        OneMore(outcomes, o.value);
        outcomes := outcomes + [o.value];
        if o.value.moved { moved := moved + [o.value.id]; }
      } else {
        errors := errors + [Failure(todo[i], o.error)];
      }
      i := i + 1;
    }
  }

  method RecoverOne(r: ActionRepository, id: ActionId, now: Time) returns (o: Result<Recovered>)
    requires r.Valid()
    modifies r
    ensures S.Reply(r.State(), o) == Recover(old(r.State()), id, now)
    ensures id in old(r.actions) && o.Ok? && !o.value.moved ==>
              Reports(old(r.actions)[id], if id in old(r.outcomes) then Some(old(r.outcomes)[id]) else None, o.value)
    ensures r.Valid()
  {
    if id in r.actions && Recover(r.State(), id, now).result.Ok? { RecoverReports(r.State(), id, now); }
    if id !in r.actions { return Err(InvalidRequest); }
    var a := r.actions[id];
    if a.state == Leased && !(id in r.leases && r.leases[id].granted && r.leases[id].expiresAt > now) {
      var advanced := r.AdvanceAction(id, a.version, ReconciliationRequired, RECOVERY_ACTOR, now);
      if advanced.Err? { return Err(advanced.error); }
      return Ok(Recovered(id, ReconciliationRequired, true, Some(MutationNotStarted), LeaseExpiredReconcile));
    }
    o := Ok(Advise(a, if id in r.outcomes then Some(r.outcomes[id]) else None));
  }

  // ----- what a sweep does --------------------------------------------------------

  ghost predicate Distinct(ids: seq<ActionId>) { forall i, j :: 0 <= i < j < |ids| ==> ids[i] != ids[j] }

  predicate Listed(s: S.State, ids: seq<ActionId>) { forall i :: 0 <= i < |ids| ==> ids[i] in s.actions }

  /** After `n` ids, exactly the movable ones among them have moved, each by the
      reading taken for it, and nothing else is different. */
  ghost predicate SweptOk(s: S.State, t: S.State, ids: seq<ActionId>, clock: nat -> Time, n: nat)
    requires n <= |ids| && Listed(s, ids)
  {
    && t == s.(actions := t.actions) && t.actions.Keys == s.actions.Keys
    && (forall i :: 0 <= i < n ==>
          t.actions[ids[i]] == if Movable(s, ids[i], clock(i)) then Moved(s.actions[ids[i]]) else s.actions[ids[i]])
    && (forall x :: x in s.actions && x !in ids[..n] ==> t.actions[x] == s.actions[x])
  }

  /** Recovering one action does not depend on the others. */
  lemma RecoverIsLocal(s: S.State, t: S.State, id: ActionId, now: Time)
    requires id in s.actions && RecordOk(s, id) && t == s.(actions := t.actions)
    requires id in t.actions && t.actions[id] == s.actions[id]
    ensures var r := Recover(t, id, now);
            && r.state == (if Movable(s, id, now) then t.(actions := t.actions[id := Moved(s.actions[id])]) else t)
            && (r.result.Err? <==> Abandoned(s, id, now) && !Movable(s, id, now))
            && (r.result.Ok? ==> r.result.value.id == id && (r.result.value.moved <==> Movable(s, id, now)))
  {
    RecoverMoves(t, id, now);
  }

  lemma SweptExtends(s: S.State, t: S.State, u: S.State, ids: seq<ActionId>, clock: nat -> Time, n: nat)
    requires 0 < n <= |ids| && Listed(s, ids) && Distinct(ids) && SweptOk(s, t, ids, clock, n - 1)
    requires u == if Movable(s, ids[n - 1], clock(n - 1))
                  then t.(actions := t.actions[ids[n - 1] := Moved(s.actions[ids[n - 1]])]) else t
    ensures SweptOk(s, u, ids, clock, n)
  {
    var id := ids[n - 1];
    assert ids[..n] == ids[..n - 1] + [id];
    assert id !in ids[..n - 1];
  }

  lemma {:induction false} SweepMoves(s: S.State, ids: seq<ActionId>, clock: nat -> Time, n: nat)
    requires n <= |ids| && RecordsOk(s) && Listed(s, ids) && Distinct(ids)
    ensures SweptOk(s, SweepTo(s, ids, clock, n).state, ids, clock, n)
    decreases n
  {
    if n == 0 { return; }
    SweepMoves(s, ids, clock, n - 1);
    var prev, id := SweepTo(s, ids, clock, n - 1).state, ids[n - 1];
    assert id !in ids[..n - 1] && RecordOk(s, id);
    RecoverIsLocal(s, prev, id, clock(n - 1));
    SweptExtends(s, prev, SweepTo(s, ids, clock, n).state, ids, clock, n);
  }

  /** An id is reported or it fails, never both; it counts as moved exactly when
      its action was movable. */
  predicate ReportOk(s: S.State, w: Swept, id: ActionId, now: Time) {
    && (id in FailedIds(w.errors) <==> Abandoned(s, id, now) && !Movable(s, id, now))
    && (id in Ids(w.outcomes) <==> id !in FailedIds(w.errors))
    && (id in MovedIds(w.outcomes) <==> Movable(s, id, now))
  }

  predicate Unreported(w: Swept, id: ActionId) {
    id !in FailedIds(w.errors) && id !in Ids(w.outcomes) && id !in MovedIds(w.outcomes)
  }

  /** What one more recovery adds to the two lists. */
  predicate Appends(s: S.State, v: Swept, w: Swept, id: ActionId, now: Time) {
    var fails := Abandoned(s, id, now) && !Movable(s, id, now);
    && |w.outcomes| + |w.errors| == |v.outcomes| + |v.errors| + 1
    && FailedIds(w.errors) == FailedIds(v.errors) + (if fails then [id] else [])
    && Ids(w.outcomes) == Ids(v.outcomes) + (if fails then [] else [id])
    && MovedIds(w.outcomes) == MovedIds(v.outcomes) + (if Movable(s, id, now) then [id] else [])
  }

  lemma RecoveryAppends(s: S.State, v: Swept, id: ActionId, now: Time)
    requires id in s.actions && RecordOk(s, id) && v.state == s.(actions := v.state.actions)
    requires id in v.state.actions && v.state.actions[id] == s.actions[id]
    ensures Appends(s, v, SweepOne(v, id, now), id, now)
  {
    RecoverIsLocal(s, v.state, id, now);
    var r := Recover(v.state, id, now).result;
    if r.Ok? { OneMore(v.outcomes, r.value); } else { OneMoreFailed(v.errors, Failure(id, r.error)); }
  }

  ghost predicate ReportsOk(s: S.State, w: Swept, ids: seq<ActionId>, clock: nat -> Time, n: nat)
    requires n <= |ids|
  {
    && |w.outcomes| + |w.errors| == n
    && (forall i {:trigger ids[i]} :: 0 <= i < n ==> ReportOk(s, w, ids[i], clock(i)))
    && (forall x {:trigger Unreported(w, x)} :: x !in ids[..n] ==> Unreported(w, x))
  }

  lemma ReportsExtend(s: S.State, v: Swept, w: Swept, ids: seq<ActionId>, clock: nat -> Time, n: nat)
    requires 0 < n <= |ids| && Distinct(ids) && ReportsOk(s, v, ids, clock, n - 1)
    requires Appends(s, v, w, ids[n - 1], clock(n - 1))
    ensures ReportsOk(s, w, ids, clock, n)
  {
    var id := ids[n - 1];
    assert id !in ids[..n - 1];
    assert Unreported(v, id);
    assert ReportOk(s, w, id, clock(n - 1));
    forall i | 0 <= i < n ensures ReportOk(s, w, ids[i], clock(i)) {
      if i < n - 1 { assert ids[i] != id && ReportOk(s, v, ids[i], clock(i)); }
    }
    forall x | x !in ids[..n] ensures Unreported(w, x) {
      assert ids[..n] == ids[..n - 1] + [id];
      assert Unreported(v, x);
    }
  }

  lemma {:induction false} SweepAppends(s: S.State, ids: seq<ActionId>, clock: nat -> Time, n: nat)
    requires 0 < n <= |ids| && RecordsOk(s) && Listed(s, ids) && Distinct(ids)
    ensures Appends(s, SweepTo(s, ids, clock, n - 1), SweepTo(s, ids, clock, n), ids[n - 1], clock(n - 1))
  {
    var v, id := SweepTo(s, ids, clock, n - 1), ids[n - 1];
    SweepMoves(s, ids, clock, n - 1);
    assert id !in ids[..n - 1] && RecordOk(s, id);
    RecoveryAppends(s, v, id, clock(n - 1));
  }

  lemma {:induction false} SweepReports(s: S.State, ids: seq<ActionId>, clock: nat -> Time, n: nat)
    requires n <= |ids| && RecordsOk(s) && Listed(s, ids) && Distinct(ids)
    ensures ReportsOk(s, SweepTo(s, ids, clock, n), ids, clock, n)
    decreases n
  {
    if n == 0 { return; }
    SweepReports(s, ids, clock, n - 1);
    SweepAppends(s, ids, clock, n);
    ReportsExtend(s, SweepTo(s, ids, clock, n - 1), SweepTo(s, ids, clock, n), ids, clock, n);
  }

  /** Records stay well formed. */
  lemma SweptRecordsOk(s: S.State, t: S.State, ids: seq<ActionId>, clock: nat -> Time)
    requires RecordsOk(s) && Listed(s, ids) && SweptOk(s, t, ids, clock, |ids|)
    ensures RecordsOk(t) && Listed(t, ids)
  {
    forall x | x in t.actions ensures RecordOk(t, x) {
      assert RecordOk(s, x);
      if x in ids[..|ids|] { var i :| 0 <= i < |ids| && ids[i] == x; }
    }
  }

  /** Nothing swept is movable at the same instant. */
  lemma NothingLeft(s: S.State, t: S.State, u: S.State, ids: seq<ActionId>, clock: nat -> Time)
    requires Listed(s, ids) && Listed(t, ids) && SweptOk(s, t, ids, clock, |ids|) && SweptOk(t, u, ids, clock, |ids|)
    ensures u == t
  {
    forall x | x in t.actions ensures u.actions[x] == t.actions[x] {
      if x in ids[..|ids|] { var i :| 0 <= i < |ids| && ids[i] == x; }
    }
    assert u.actions == t.actions;
  }

  lemma EnumerationIsListed(s: S.State, limit: nat, ids: seq<ActionId>)
    requires Enumerates(s, limit, ids)
    ensures Listed(s, ids) && Distinct(ids)
  {
  }

  /** The sweep changes exactly the enumerated actions that are LEASED without a
      live lease and unexpired, moving each to RECONCILIATION_REQUIRED and
      touching nothing else; every enumerated id is reported or fails, never
      both; and the list of moved ids is exactly the set that changed. */
  lemma SweepIsExact(s: S.State, limit: nat, ids: seq<ActionId>, clock: nat -> Time)
    requires RecordsOk(s) && Enumerates(s, limit, ids)
    ensures Listed(s, ids)
    ensures var w := SweepTo(s, ids, clock, |ids|);
            && SweptOk(s, w.state, ids, clock, |ids|)
            && ReportsOk(s, w, ids, clock, |ids|)
            && (forall x :: x in MovedIds(w.outcomes) <==> x in s.actions && w.state.actions[x] != s.actions[x])
  {
    EnumerationIsListed(s, limit, ids);
    var w := SweepTo(s, ids, clock, |ids|);
    SweepMoves(s, ids, clock, |ids|);
    SweepReports(s, ids, clock, |ids|);
    assert ids[..|ids|] == ids;
    forall x ensures x in MovedIds(w.outcomes) <==> x in s.actions && w.state.actions[x] != s.actions[x] {
      if x in ids {
        var i :| 0 <= i < |ids| && ids[i] == x;
        assert ReportOk(s, w, ids[i], clock(i));
      } else {
        assert Unreported(w, x);
      }
    }
  }

  /** The enumeration does not see the moves: the same ids in the same order. */
  lemma EnumerationIsStable(s: S.State, limit: nat, ids: seq<ActionId>, clock: nat -> Time, again: seq<ActionId>)
    requires RecordsOk(s) && Enumerates(s, limit, ids)
    requires Enumerates(SweepTo(s, ids, clock, |ids|).state, limit, again)
    ensures again == ids
  {
    var t := SweepTo(s, ids, clock, |ids|).state;
    EnumerationIsListed(s, limit, ids);
    SweepMoves(s, ids, clock, |ids|);
    SweptPending(s, t, ids, clock);
    SamePending(s, t, limit, again);
    EnumerationIsUnique(s, limit, ids, again, 0);
  }

  /** A move neither finishes an action nor changes its place in the order. */
  lemma SweptPending(s: S.State, t: S.State, ids: seq<ActionId>, clock: nat -> Time)
    requires Listed(s, ids) && SweptOk(s, t, ids, clock, |ids|)
    ensures forall x :: Pending(t, x) == Pending(s, x)
    ensures forall x :: x in s.actions ==> x in t.actions && t.actions[x].createdAt == s.actions[x].createdAt
  {
    forall x | x in s.actions
      ensures x in t.actions && Pending(t, x) == Pending(s, x) && t.actions[x].createdAt == s.actions[x].createdAt {
      if x in ids[..|ids|] { var i :| 0 <= i < |ids| && ids[i] == x; }
    }
  }

  lemma SamePending(s: S.State, t: S.State, limit: nat, ids: seq<ActionId>)
    requires Enumerates(t, limit, ids)
    requires forall x :: Pending(t, x) == Pending(s, x)
    requires forall x :: x in s.actions ==> x in t.actions && t.actions[x].createdAt == s.actions[x].createdAt
    ensures Enumerates(s, limit, ids)
  {
  }

  /** Two enumerations of the same unfinished actions agree from `i` on. */
  lemma {:induction false} EnumerationIsUnique(s: S.State, limit: nat, xs: seq<ActionId>, ys: seq<ActionId>, i: nat)
    requires Enumerates(s, limit, xs) && Enumerates(s, limit, ys) && i <= |xs| && i <= |ys| && xs[..i] == ys[..i]
    ensures xs == ys
    decreases |xs| - i
  {
    if i == |xs| || i == |ys| {
      assert xs == xs[..i] || ys == ys[..i];
      if i == |xs| { NoLonger(s, limit, xs, ys); } else { NoLonger(s, limit, ys, xs); }
      assert xs == xs[..i] && ys == ys[..i];
      return;
    }
    NextIsNoEarlier(s, limit, xs, ys, i);
    NextIsNoEarlier(s, limit, ys, xs, i);
    assert xs[..i + 1] == xs[..i] + [xs[i]] && ys[..i + 1] == ys[..i] + [ys[i]];
    EnumerationIsUnique(s, limit, xs, ys, i + 1);
  }

  lemma NextIsNew(s: S.State, limit: nat, ys: seq<ActionId>, n: nat)
    requires Enumerates(s, limit, ys) && n < |ys|
    ensures ys[n] !in ys[..n] && Pending(s, ys[n])
  {
    assert Distinct(ys);
  }

  /** An enumeration that extends another is the same one. */
  lemma NoLonger(s: S.State, limit: nat, xs: seq<ActionId>, ys: seq<ActionId>)
    requires Enumerates(s, limit, xs) && Enumerates(s, limit, ys) && |xs| <= |ys| && xs == ys[..|xs|]
    ensures |xs| == |ys|
  {
    if |xs| < |ys| { NextIsNew(s, limit, ys, |xs|); }
  }

  /** Where two enumerations have agreed so far, neither goes on with a later
      action than the other. */
  lemma NextIsNoEarlier(s: S.State, limit: nat, xs: seq<ActionId>, ys: seq<ActionId>, i: nat)
    requires Enumerates(s, limit, xs) && Enumerates(s, limit, ys) && i < |xs| && i < |ys| && xs[..i] == ys[..i]
    ensures xs[i] == ys[i] || Before(s.actions, ys[i], xs[i])
  {
    var x := xs[i];
    NextIsNew(s, limit, xs, i);
    if x in ys {
      assert ys == ys[..i] + ys[i..];
      var k :| 0 <= k < |ys[i..]| && ys[i..][k] == x;
      assert ys[i + k] == x;
    }
  }

  /** Repeating the sweep at the same instant changes nothing. */
  lemma SweepIsIdempotent(s: S.State, limit: nat, ids: seq<ActionId>, now: Time, again: seq<ActionId>)
    requires RecordsOk(s) && Enumerates(s, limit, ids)
    requires Enumerates(SweepTo(s, ids, _ => now, |ids|).state, limit, again)
    ensures var t := SweepTo(s, ids, _ => now, |ids|).state;
            SweepTo(t, again, _ => now, |again|).state == t
  {
    var clock: nat -> Time := _ => now;
    var t := SweepTo(s, ids, clock, |ids|).state;
    EnumerationIsListed(s, limit, ids);
    EnumerationIsStable(s, limit, ids, clock, again);
    SweepMoves(s, ids, clock, |ids|);
    SweptRecordsOk(s, t, ids, clock);
    SweepMoves(t, ids, clock, |ids|);
    NothingLeft(s, t, SweepTo(t, ids, clock, |ids|).state, ids, clock);
  }
}
