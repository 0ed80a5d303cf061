/** The action lifecycle: transition table, validation and advance
    (control_plane/lifecycle.py), with the measure that bounds every run. */
module Lifecycle {
  import opened Types

  datatype LifecycleState =
    | Requested | Planned | ConfirmationRequired | Confirmed | SnapshotCaptured
    | Invalidated | Expired | Rejected
    | Leased | Running | ExecutedPendingVerification | VerifiedSuccess
    | VerificationFailed | ExecutionFailed
    | CancelRequested | TimedOut | Interrupted
    | ReconciliationRequired | RollbackRequested | RolledBack
    | RollbackUnavailable | RollbackFailed

  /** Idempotency identity of a request. */
  datatype Key = Key(target: Target, operation: Operation, token: nat)

  /** One durable action.  Only `state`, `version` and `approver` ever change. */
  datatype Action = Action(
    id: ActionId,
    planId: nat,
    planDigest: nat,
    operation: Operation,
    target: Target,
    environment: Environment,
    policyVersion: nat,
    state: LifecycleState,
    requester: Subject,
    protocol: ActionProtocol,
    kind: ConfirmationKind,
    approver: Option<Subject>,
    token: nat,
    createdAt: Time,
    expiresAt: Time,
    version: nat,
    planRevision: nat,
    rollbackOf: Option<ActionId>,
    snapshotRef: Option<SnapshotId>
  ) {
    predicate IsExpired(now: Time) { now >= expiresAt }

    function IndexKey(): Key { Key(target, operation, token) }

    /** The action with its lifecycle bookkeeping blanked out. */
    function Fixed(): Action {
      this.(state := Requested, version := 0, approver := None)
    }
  }

  predicate Terminal(s: LifecycleState) {
    || s.Rejected? || s.Expired? || s.Invalidated? || s.VerifiedSuccess? || s.ExecutionFailed? || s.RolledBack?
    || s.RollbackUnavailable? || s.RollbackFailed?
  }

  /** The transition table, including the successors listed for the terminal
      state ExecutionFailed, which validation never lets anyone use. */
  predicate InTable(s: LifecycleState, t: LifecycleState) {
    match s
    case Requested => t.Planned? || t.Rejected? || t.Expired?
    case Planned => t.ConfirmationRequired? || t.Invalidated? || t.Expired?
    case ConfirmationRequired => t.Confirmed? || t.Rejected? || t.Invalidated? || t.Expired?
    case Confirmed => t.SnapshotCaptured? || t.Invalidated? || t.Expired?
    case SnapshotCaptured => t.Leased? || t.Invalidated? || t.Expired?
    case Leased => t.Running? || t.ReconciliationRequired? || t.Invalidated? || t.Expired?
    case Running => t.ExecutedPendingVerification? || t.ExecutionFailed? || t.ReconciliationRequired?
    case ExecutedPendingVerification => t.VerifiedSuccess? || t.VerificationFailed?
    case VerificationFailed => t.RollbackRequested? || t.ReconciliationRequired?
    case ExecutionFailed => t.RollbackRequested? || t.ReconciliationRequired?
    case CancelRequested => t.ReconciliationRequired? || t.Interrupted?
    case TimedOut => t.ReconciliationRequired?
    case Interrupted => t.ReconciliationRequired?
    case ReconciliationRequired => t.VerifiedSuccess? || t.RollbackRequested? || t.RollbackUnavailable?
    case RollbackRequested => t.RolledBack? || t.RollbackUnavailable? || t.RollbackFailed?
    case _ => false
  }

  predicate Implemented(s: LifecycleState) {
    !(s.CancelRequested? || s.TimedOut? || s.Interrupted? || s.RollbackUnavailable?)
  }

  /** States an action value may only hold with a recorded confirmer. */
  predicate NeedsConfirmer(s: LifecycleState) {
    || s.Confirmed? || s.Leased? || s.Running? || s.ExecutedPendingVerification? || s.VerifiedSuccess?
    || s.VerificationFailed? || s.CancelRequested? || s.TimedOut? || s.Interrupted? || s.ReconciliationRequired?
    || s.RollbackRequested? || s.RolledBack? || s.RollbackUnavailable? || s.RollbackFailed?
  }

  predicate ConfirmerAccepted(a: Action, actor: Option<Subject>) {
    && actor.Some?
    && (a.kind.DistinctApproval? ==> actor.value != a.requester)
    && (a.kind.OwnerConfirmation? ==> actor.value == a.requester)
    && (a.approver.Some? ==> a.approver == actor)
  }

  predicate ValidTransition(a: Action, next: LifecycleState, now: Option<Time>, actor: Option<Subject>) {
    && !Terminal(a.state)
    && InTable(a.state, next)
    && Implemented(next)
    && (now.Some? && a.IsExpired(now.value) ==> next == Expired)
    && (next == Confirmed ==> ConfirmerAccepted(a, actor))
  }

  /** Rebuilding the value re-validates it, so a state that needs a confirmer
      is refused when none is recorded. */
  function Advance(a: Action, next: LifecycleState, now: Option<Time>, actor: Option<Subject>): (r: Result<Action>)
    ensures r.Ok? ==> r.value.Fixed() == a.Fixed() && r.value.version == a.version + 1
    ensures r.Ok? ==> r.value.state == next && Rank(next) < Rank(a.state)
    ensures r.Ok? && a.approver.Some? ==> r.value.approver == a.approver
  {
    if !ValidTransition(a, next, now, actor) then Err(LifecycleRefused) else
    var moved := a.(state := next, version := a.version + 1,
                    approver := if next == Confirmed then actor else a.approver);
    if NeedsConfirmer(next) && moved.approver.None? then Err(LifecycleRefused) else Ok(moved)
  }

  /** Length of the longest usable path out of a state. */
  function Rank(s: LifecycleState): nat {
    match s
    case Requested => 11
    case Planned => 10
    case ConfirmationRequired => 9
    case Confirmed => 8
    case SnapshotCaptured => 7
    case Leased => 6
    case Running => 5
    case ExecutedPendingVerification => 4
    case CancelRequested => 4
    case VerificationFailed => 3
    case TimedOut => 3
    case Interrupted => 3
    case ReconciliationRequired => 2
    case RollbackRequested => 1
    case _ => 0
  }

  /** A history of one action: each value is an advance of the one before. */
  ghost predicate IsHistory(h: seq<Action>) {
    forall i :: 0 < i < |h| ==> IsAdvance(h[i - 1], h[i])
  }

  ghost predicate IsAdvance(a: Action, b: Action) {
    exists now: Option<Time>, actor: Option<Subject> :: Advance(a, b.state, now, actor) == Ok(b)
  }

  lemma {:induction false} HistoryMeasure(h: seq<Action>, i: nat, j: nat)
    requires IsHistory(h) && i <= j < |h|
    ensures h[j].version == h[i].version + (j - i)
    ensures h[j].Fixed() == h[i].Fixed()
    ensures Rank(h[j].state) + (j - i) <= Rank(h[i].state)
    decreases j
  {
    if i < j {
      HistoryMeasure(h, i, j - 1);
      assert IsAdvance(h[j - 1], h[j]);
    }
  }

  /** From a fresh request every run makes at most eleven transitions, the
      version counts them, and no state is entered twice. */
  lemma LifecycleIsBounded(h: seq<Action>)
    requires |h| > 0 && IsHistory(h) && h[0].state == Requested && h[0].version == 0
    ensures |h| <= 12
    ensures forall i :: 0 <= i < |h| ==> h[i].version == i && h[i].Fixed() == h[0].Fixed()
    ensures forall i, j :: 0 <= i < j < |h| ==> h[i].state != h[j].state
  {
    HistoryMeasure(h, 0, |h| - 1);
    forall i | 0 <= i < |h| ensures h[i].version == i && h[i].Fixed() == h[0].Fixed() {
      HistoryMeasure(h, 0, i);
    }
    forall i, j | 0 <= i < j < |h| ensures h[i].state != h[j].state {
      HistoryMeasure(h, i, j);
    }
  }

  /** Where each state can be entered from; nothing enters the four states that
      have no machinery behind them. */
  predicate Enters(s: LifecycleState, t: LifecycleState) {
    match t
    case Planned => s.Requested?
    case ConfirmationRequired => s.Planned?
    case Confirmed => s.ConfirmationRequired?
    case SnapshotCaptured => s.Confirmed?
    case Leased => s.SnapshotCaptured?
    case Running => s.Leased?
    case ExecutedPendingVerification => s.Running?
    case VerifiedSuccess => s.ExecutedPendingVerification? || s.ReconciliationRequired?
    case VerificationFailed => s.ExecutedPendingVerification?
    case ExecutionFailed => s.Running?
    case ReconciliationRequired =>
      s.Leased? || s.Running? || s.VerificationFailed? || s.CancelRequested? || s.TimedOut? || s.Interrupted?
    case RollbackRequested => s.VerificationFailed? || s.ReconciliationRequired?
    case RolledBack => s.RollbackRequested?
    case RollbackFailed => s.RollbackRequested?
    case Rejected => s.Requested? || s.ConfirmationRequired?
    case Invalidated =>
      s.Planned? || s.ConfirmationRequired? || s.Confirmed? || s.SnapshotCaptured? || s.Leased?
    case Expired =>
      s.Requested? || s.Planned? || s.ConfirmationRequired? || s.Confirmed? || s.SnapshotCaptured? || s.Leased?
    case _ => false
  }

  /** An advance succeeds exactly where the next state can be entered from the present one, within the
      action's window unless it expires it, with a confirmer who may confirm or
      one on record where the next state wants one; and it changes nothing but
      state, version and, on confirming, the confirmer. */
  lemma AdvancesExactly(a: Action, next: LifecycleState, now: Option<Time>, actor: Option<Subject>)
    ensures var r := Advance(a, next, now, actor);
            && (r.Ok? <==>
                  && Enters(a.state, next)
                  && (now.Some? && now.value >= a.expiresAt ==> next == Expired)
                  && (if next == Confirmed then
                        && actor.Some? && (actor.value == a.requester <==> a.kind == OwnerConfirmation)
                        && (a.approver.Some? ==> a.approver == actor)
                      else NeedsConfirmer(next) ==> a.approver.Some?))
            && (r.Ok? ==> r.value == a.(state := next, version := a.version + 1,
                                        approver := if next == Confirmed then actor else a.approver))
  {
  }

  /** The one way from a request to an executed mutation. */
  const MainPath: seq<LifecycleState> :=
    [Requested, Planned, ConfirmationRequired, Confirmed, SnapshotCaptured, Leased, Running,
     ExecutedPendingVerification]

  /** There is no shortcut: an action in one of these states has been through all
      the ones before it, each exactly once and in order. */
  lemma {:induction false} OneWayToExecution(h: seq<Action>, n: nat, i: nat)
    requires |h| > 0 && IsHistory(h) && h[0].state == Requested
    requires n < |h| && i < |MainPath| && h[n].state == MainPath[i]
    ensures n == i && forall k :: 0 <= k <= i ==> h[k].state == MainPath[k]
    decreases n
  {
    if n > 0 {
      assert IsAdvance(h[n - 1], h[n]);
      assert i > 0 && h[n - 1].state == MainPath[i - 1];
      OneWayToExecution(h, n - 1, i - 1);
    } else {
      assert MainPath[0] == Requested;
    }
  }

  function LongestPath(): seq<LifecycleState> {
    [Requested, Planned, ConfirmationRequired, Confirmed, SnapshotCaptured, Leased, Running,
     ExecutedPendingVerification, VerificationFailed, ReconciliationRequired, RollbackRequested, RolledBack]
  }

  /** The bound of eleven is reached, so it cannot be improved. */
  lemma BoundIsTight(a: Action)
    requires a.state == Requested && a.version == 0 && a.kind == OwnerConfirmation && a.approver == None
    ensures exists h: seq<Action> :: |h| == 12 && h[0] == a && IsHistory(h)
  {
    var p := LongestPath();
    var h := seq(12, (i: int) requires 0 <= i < 12 =>
      a.(state := p[i], version := i, approver := if i < 3 then None else Some(a.requester)));
    forall i | 0 < i < 12 ensures IsAdvance(h[i - 1], h[i]) {
      assert Advance(h[i - 1], h[i].state, None, Some(a.requester)) == Ok(h[i]);
    }
    assert h[0] == a;
  }
}
