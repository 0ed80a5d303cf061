/** The durable mutation fence: receipts keyed by action and fencing token
    (control_plane/mutation_receipt.py), and the executor-side calls it guards
    (composition/executor_update.py, control_plane/standalone_executor.py),
    interleaved step by step with failures of the store and crashes. */
module Fence {
  import opened Types

  datatype FenceKey = FenceKey(action: ActionId, token: nat)

  datatype Status = ReceiptCreated | ReceiptSucceeded | ReceiptFailed | ReceiptUnknown

  datatype Capability = ExecuteUpdatePlan | ExecuteServiceUpdate | OtherCapability

  datatype Receipt = Receipt(capability: Capability, target: nat, digest: nat, status: Status)

  type Rows = map<FenceKey, Receipt>

  // ----- the receipt table --------------------------------------------------

  /** One durable table; both operations run in one write transaction. */
  class ReceiptStore {
    var rows: Rows

    constructor ()
      ensures rows == map[]
    {
      rows := map[];
    }

    method Claim(key: FenceKey, r: Receipt) returns (ok: bool)
      modifies this
      ensures ok <==> key !in old(rows)
      ensures rows == if ok then old(rows)[key := r.(status := ReceiptCreated)] else old(rows)
    {
      if key in rows { return false; }
      rows := rows[key := r.(status := ReceiptCreated)];
      ok := true;
    }

    method Complete(key: FenceKey, status: Status) returns (ok: bool)
      modifies this
      ensures ok <==> Open(old(rows), key)
      ensures rows == Completed(old(rows), key, status)
    {
      if key !in rows || rows[key].status != ReceiptCreated { return false; }
      rows := rows[key := rows[key].(status := status)];
      ok := true;
    }

    method Get(key: FenceKey) returns (r: Option<Receipt>)
      ensures r == if key in rows then Some(rows[key]) else None
    {
      r := if key in rows then Some(rows[key]) else None;
    }
  }

  predicate Open(rows: Rows, key: FenceKey) { key in rows && rows[key].status == ReceiptCreated }

  function Completed(rows: Rows, key: FenceKey, status: Status): Rows {
    if Open(rows, key) then rows[key := rows[key].(status := status)] else rows
  }

  // ----- calls ---------------------------------------------------------------

  /** What a call asks for: an update over IPC, or a standalone restart. */
  datatype Order =
    | UpdateOrder(key: FenceKey, capability: Capability, target: nat, digest: nat,
                  planDigest: string, confirmationId: string, scope: Option<seq<string>>)
    | RestartOrder(key: FenceKey, capability: Capability, target: nat, digest: nat, envelopeValid: bool)

  datatype Config = Config(hasEngine: bool, hasAdapter: bool)

  predicate IsHex(s: string, n: nat) {
    |s| == n && forall i :: 0 <= i < |s| ==> '0' <= s[i] <= '9' || 'a' <= s[i] <= 'f'
  }

  /** Structural validation before anything durable happens. */
  predicate Admissible(config: Config, o: Order) {
    match o
    case RestartOrder(_, _, _, _, valid) => valid
    case UpdateOrder(_, capability, _, _, planDigest, confirmationId, scope) =>
      && capability != OtherCapability
      && IsHex(planDigest, 64) && IsHex(confirmationId, 32)
      && if capability == ExecuteServiceUpdate || scope.Some? then
           scope.Some? && scope.value != [] && config.hasAdapter
         else config.hasEngine
  }

  /** How the engine, the adapter or the provider can come back. */
  datatype EngineResult =
    | Finished                 // success
    | Unsuccessful             // a typed error, a non-success outcome, a non-zero exit
    | NeedsReconciliation      // the adapter could not tell, or the provider timed out
    | Interrupted              // any other exception

  function StatusOf(r: EngineResult): Status {
    match r
    case Finished => ReceiptSucceeded
    case Unsuccessful => ReceiptFailed
    case _ => ReceiptUnknown
  }

  datatype Response = CallRefused | CallAnswered(status: Status) | CallRaised

  /** Where one call stands.  `failing` marks a standalone restart that will
      re-raise its error after recording it. */
  datatype Stage =
    | Received(order: Order)
    | Claimed(order: Order)
    | Invoked(order: Order)
    | Ended(order: Order, status: Status, failing: bool)

  datatype Invocation = Invocation(call: nat, key: FenceKey)

  datatype Answer = Answer(call: nat, key: FenceKey, response: Response)

  /** `claims`, `calls` and `answers` are histories; the code reads none. */
  datatype State = State(
    config: Config, rows: Rows, live: map<nat, Stage>, next: nat,
    claims: seq<FenceKey>, calls: seq<Invocation>, answers: seq<Answer>)

  function Initial(config: Config): State { State(config, map[], map[], 0, [], [], []) }

  /** The store may fail without effect, or after its transaction committed. */
  datatype Fault = NoFault | FailsBefore | FailsAfter

  datatype Event =
    | Receive(order: Order)
    | Claim(n: nat, fault: Fault)
    | Abort(n: nat)
    | Invoke(n: nat)
    | Return(n: nat, result: EngineResult, raised: bool)
    | Complete(n: nat, fault: Fault)
    | Crash(n: nat)

  function Reply(s: State, n: nat, key: FenceKey, r: Response): State {
    s.(live := s.live - {n}, answers := s.answers + [Answer(n, key, r)])
  }

  function Refusal(o: Order): Response { if o.UpdateOrder? then CallRefused else CallRaised }

  function Step(s: State, e: Event): State {
    match e
    case Receive(o) =>
      var n := s.next;
      if Admissible(s.config, o) then s.(next := n + 1, live := s.live[n := Received(o)])
      else Reply(s.(next := n + 1), n, o.key, Refusal(o))
    case Claim(n, fault) =>
      if n !in s.live || !s.live[n].Received? then s else
      var o := s.live[n].order;
      if o.key in s.rows || fault == FailsBefore then Reply(s, n, o.key, Refusal(o)) else
      var t := s.(rows := s.rows[o.key := Receipt(o.capability, o.target, o.digest, ReceiptCreated)],
                  claims := s.claims + [o.key]);
      if fault == FailsAfter then Reply(t, n, o.key, Refusal(o)) else t.(live := s.live[n := Claimed(o)])
    case Abort(n) =>
      if n !in s.live || !s.live[n].Claimed? || !s.live[n].order.RestartOrder? then s
      else s.(live := s.live[n := Ended(s.live[n].order, ReceiptFailed, true)])
    case Invoke(n) =>
      if n !in s.live || !s.live[n].Claimed? then s
      else s.(live := s.live[n := Invoked(s.live[n].order)],
              calls := s.calls + [Invocation(n, s.live[n].order.key)])
    case Return(n, result, raised) =>
      if n !in s.live || !s.live[n].Invoked? then s else
      var o := s.live[n].order;
      s.(live := s.live[n := if o.RestartOrder? && raised then Ended(o, ReceiptFailed, true)
                             else Ended(o, StatusOf(result), false)])
    case Complete(n, fault) =>
      if n !in s.live || !s.live[n].Ended? then s else
      var o, status := s.live[n].order, s.live[n].status;
      var works := fault == NoFault && Open(s.rows, o.key);
      var t := s.(rows := if fault == FailsBefore then s.rows else Completed(s.rows, o.key, status));
      Reply(t, n, o.key, if o.RestartOrder? && (s.live[n].failing || !works) then CallRaised else CallAnswered(status))
    case Crash(n) => s.(live := s.live - {n})
  }

  function Run(s: State, es: seq<Event>): State
    decreases |es|
  {
    if es == [] then s else Step(Run(s, es[..|es| - 1]), es[|es| - 1])
  }

  // ----- invariant ------------------------------------------------------------

  /** The call has won the claim and not yet answered. */
  predicate Holds(s: State, n: nat) { n in s.live && !s.live[n].Received? }

  predicate Called(calls: seq<Invocation>, n: nat) { exists i :: 0 <= i < |calls| && calls[i].call == n }

  predicate KeyCalled(calls: seq<Invocation>, key: FenceKey) { exists i :: 0 <= i < |calls| && calls[i].key == key }

  predicate StageOk(s: State, n: nat)
    requires n in s.live
  {
    var g := s.live[n];
    && n < s.next
    && (g.Received? ==> !Called(s.calls, n))
    && (g.Claimed? ==> !KeyCalled(s.calls, g.order.key))
    && (!g.Received? ==> Open(s.rows, g.order.key))
  }

  ghost predicate Held(s: State, key: FenceKey) { exists n :: Holds(s, n) && s.live[n].order.key == key }

  ghost predicate AnswerOk(s: State, a: Answer) {
    && a.call < s.next && a.call !in s.live
    && (a.response == CallRefused ==> !Called(s.calls, a.call))
    && (a.response.CallAnswered? ==>
          && a.key in s.rows && !Held(s, a.key)
          && (s.rows[a.key].status == a.response.status || s.rows[a.key].status == ReceiptCreated))
  }

  /** Every key is claimed once, and the rows are exactly the claimed keys. */
  ghost predicate ClaimsOk(s: State) {
    && (forall i, j :: 0 <= i < j < |s.claims| ==> s.claims[i] != s.claims[j])
    && (forall k :: k in s.rows <==> k in s.claims)
  }

  /** Every engine call went through a claim of its own. */
  ghost predicate CallsOk(s: State) {
    && (forall i :: 0 <= i < |s.calls| ==> s.calls[i].key in s.rows && s.calls[i].call < s.next)
    && (forall i, j :: 0 <= i < j < |s.calls| ==> s.calls[i].key != s.calls[j].key)
  }

  ghost predicate LiveOk(s: State) {
    && (forall n {:trigger StageOk(s, n)} :: n in s.live ==> StageOk(s, n))
    && (forall m, n {:trigger Holds(s, m), Holds(s, n)} ::
          Holds(s, m) && Holds(s, n) && m != n ==> s.live[m].order.key != s.live[n].order.key)
  }

  ghost predicate AnswersOk(s: State) {
    forall i {:trigger AnswerOk(s, s.answers[i])} :: 0 <= i < |s.answers| ==> AnswerOk(s, s.answers[i])
  }

  ghost predicate Inv(s: State) { ClaimsOk(s) && CallsOk(s) && LiveOk(s) && AnswersOk(s) }

  // ----- how states evolve ----------------------------------------------------

  /** A row stays, and its status changes only away from ReceiptCreated. */
  predicate RowEvolves(s: State, t: State, k: FenceKey) {
    k in s.rows ==>
      && k in t.rows && t.rows[k].(status := s.rows[k].status) == s.rows[k]
      && (s.rows[k].status != ReceiptCreated ==> t.rows[k] == s.rows[k])
  }

  ghost predicate Evolves(s: State, t: State) {
    && s.claims <= t.claims && s.calls <= t.calls && s.answers <= t.answers && s.next <= t.next
    && forall k :: RowEvolves(s, t, k)
  }

  lemma EvolvesTrans(s: State, t: State, u: State)
    requires Evolves(s, t) && Evolves(t, u)
    ensures Evolves(s, u)
  {
    forall k ensures RowEvolves(s, u, k) { assert RowEvolves(s, t, k) && RowEvolves(t, u, k); }
  }

  // ----- preservation ---------------------------------------------------------

  /** Answers given before a step that gives none stay right. */
  lemma AnswersStay(s: State, t: State, i: nat)
    requires AnswersOk(s) && i < |s.answers| && s.next <= t.next
    requires t.live.Keys <= s.live.Keys + {s.next}
    requires forall n :: Called(t.calls, n) ==> Called(s.calls, n) || n in s.live
    requires forall k :: RowEvolves(s, t, k)
    requires forall k :: Held(t, k) ==> Held(s, k) || k !in s.rows
    requires forall k :: k in s.rows && k in t.rows && t.rows[k] != s.rows[k] ==> Held(s, k)
    ensures AnswerOk(t, s.answers[i])
  {
    var a := s.answers[i];
    assert AnswerOk(s, a) && RowEvolves(s, t, a.key);
  }

  /** Where only call `n` moved, the other calls stay in order. */
  lemma OthersStay(s: State, t: State, n: nat)
    requires LiveOk(s) && s.next <= t.next
    requires forall m :: m in t.live && m != n ==> m in s.live && t.live[m] == s.live[m]
    requires forall m, k :: m != n && Holds(s, m) && s.live[m].order.key == k && Open(s.rows, k) ==> Open(t.rows, k)
    requires forall m :: m != n && Called(t.calls, m) ==> Called(s.calls, m)
    requires forall m :: m in s.live && m != n && s.live[m].Claimed? && KeyCalled(t.calls, s.live[m].order.key)
                         ==> KeyCalled(s.calls, s.live[m].order.key)
    requires n in t.live ==> StageOk(t, n)
    requires Holds(t, n) ==> forall m :: m != n && Holds(s, m) ==> s.live[m].order.key != t.live[n].order.key
    ensures LiveOk(t)
  {
    forall m | m in t.live ensures StageOk(t, m) { if m != n { assert StageOk(s, m); } }
    forall l, m | Holds(t, l) && Holds(t, m) && l != m ensures t.live[l].order.key != t.live[m].order.key {
      if l != n { assert Holds(s, l); }
      if m != n { assert Holds(s, m); }
    }
  }

  lemma LiveIsNumbered(s: State, n: nat)
    requires LiveOk(s)
    ensures n in s.live ==> n < s.next
  {
    if n in s.live { assert StageOk(s, n); }
  }

  lemma HeldIsClaimed(s: State, k: FenceKey)
    requires LiveOk(s)
    ensures Held(s, k) ==> k in s.rows
  {
    if m :| Holds(s, m) && s.live[m].order.key == k { assert StageOk(s, m); }
  }

  lemma ReceiveKeeps(s: State, o: Order)
    requires Inv(s)
    ensures Inv(Step(s, Receive(o))) && Evolves(s, Step(s, Receive(o)))
  {
    var t, n := Step(s, Receive(o)), s.next;
    LiveIsNumbered(s, n);
    assert !Called(s.calls, n);
    OthersStay(s, t, n);
    forall k | Held(t, k) ensures Held(s, k) {
      var m :| Holds(t, m) && t.live[m].order.key == k;
      assert Holds(s, m);
    }
    forall i | 0 <= i < |t.answers| ensures AnswerOk(t, t.answers[i]) {
      if i < |s.answers| { assert t.answers[i] == s.answers[i]; AnswersStay(s, t, i); }
    }
  }

  /** A call that is turned away, or dies, leaves the rest alone. */
  lemma LeaveKeeps(s: State, n: nat)
    requires Inv(s)
    ensures var t := s.(live := s.live - {n}); Inv(t) && Evolves(s, t)
  {
    var t := s.(live := s.live - {n});
    OthersStay(s, t, n);
    forall k | Held(t, k) ensures Held(s, k) {
      var m :| Holds(t, m) && t.live[m].order.key == k;
      assert Holds(s, m);
    }
    forall i | 0 <= i < |t.answers| ensures AnswerOk(t, t.answers[i]) { AnswersStay(s, t, i); }
  }

  /** One more answer, once its call has left. */
  lemma AnswerKeeps(s: State, t: State, a: Answer)
    requires Inv(s) && AnswerOk(s, a) && t == s.(answers := s.answers + [a])
    ensures Inv(t) && Evolves(s, t)
  {
    assert forall n :: n in s.live ==> StageOk(s, n) ==> StageOk(t, n);
    assert forall n :: Holds(t, n) <==> Holds(s, n);
    assert forall k :: Held(t, k) ==> Held(s, k);
    forall i | 0 <= i < |t.answers| ensures AnswerOk(t, t.answers[i]) {
      assert i < |s.answers| ==> AnswerOk(s, s.answers[i]);
      assert t.answers[i] == if i < |s.answers| then s.answers[i] else a;
    }
  }

  lemma RefuseKeeps(s: State, n: nat)
    requires Inv(s) && n in s.live && s.live[n].Received?
    ensures var o := s.live[n].order; var t := Reply(s, n, o.key, Refusal(o)); Inv(t) && Evolves(s, t)
  {
    var o := s.live[n].order;
    var u := s.(live := s.live - {n});
    assert StageOk(s, n);
    LeaveKeeps(s, n);
    AnswerKeeps(u, Reply(s, n, o.key, Refusal(o)), Answer(n, o.key, Refusal(o)));
    EvolvesTrans(s, u, Reply(s, n, o.key, Refusal(o)));
  }

  /** The receipt is inserted; the call is not yet told. */
  lemma InsertKeeps(s: State, n: nat, r: Receipt)
    requires Inv(s) && n in s.live && s.live[n].Received? && s.live[n].order.key !in s.rows
             && r.status == ReceiptCreated
    ensures var k := s.live[n].order.key;
            var t := s.(rows := s.rows[k := r], claims := s.claims + [k]); Inv(t) && Evolves(s, t)
  {
    var k := s.live[n].order.key;
    var t := s.(rows := s.rows[k := r], claims := s.claims + [k]);
    assert StageOk(s, n) && StageOk(t, n);
    OthersStay(s, t, n);
    assert t.claims[|s.claims|] == k;
    forall x | Held(t, x) ensures Held(s, x) {
      var m :| Holds(t, m) && t.live[m].order.key == x;
      assert Holds(s, m);
    }
    forall i | 0 <= i < |t.answers| ensures AnswerOk(t, t.answers[i]) { AnswersStay(s, t, i); }
  }

  /** Call `n` moves on, holding the key it claimed. */
  lemma MoveKeeps(s: State, n: nat, g: Stage)
    requires Inv(s) && n in s.live && g.order == s.live[n].order && !g.Received?
    requires Open(s.rows, g.order.key) && (g.Claimed? ==> !KeyCalled(s.calls, g.order.key))
    requires !Holds(s, n) ==> !Held(s, g.order.key)
    requires forall i :: 0 <= i < |s.answers| && s.answers[i].response.CallAnswered? ==> s.answers[i].key != g.order.key
    ensures var t := s.(live := s.live[n := g]); Inv(t) && Evolves(s, t)
  {
    var t := s.(live := s.live[n := g]);
    assert StageOk(s, n) && StageOk(t, n);
    OthersStay(s, t, n);
    forall i | 0 <= i < |t.answers| ensures AnswerOk(t, t.answers[i]) {
      var a := s.answers[i];
      assert AnswerOk(s, a);
      if Held(t, a.key) {
        var m :| Holds(t, m) && t.live[m].order.key == a.key;
        assert m != n ==> Holds(s, m);
      }
    }
  }

  /** Nobody has been answered about a key that is still held. */
  lemma HeldIsUnanswered(s: State, n: nat)
    requires Inv(s) && Holds(s, n)
    ensures forall i :: 0 <= i < |s.answers| && s.answers[i].response.CallAnswered? ==>
                          s.answers[i].key != s.live[n].order.key
  {
    forall i | 0 <= i < |s.answers| && s.answers[i].response.CallAnswered?
      ensures s.answers[i].key != s.live[n].order.key {
      assert AnswerOk(s, s.answers[i]);
    }
  }

  lemma ClaimKeeps(s: State, n: nat, fault: Fault)
    requires Inv(s)
    ensures var t := Step(s, Claim(n, fault)); Inv(t) && Evolves(s, t)
  {
    if n !in s.live || !s.live[n].Received? { return; }
    var o := s.live[n].order;
    if o.key in s.rows || fault == FailsBefore { RefuseKeeps(s, n); return; }
    var r := Receipt(o.capability, o.target, o.digest, ReceiptCreated);
    var u := s.(rows := s.rows[o.key := r], claims := s.claims + [o.key]);
    InsertKeeps(s, n, r);
    if fault == FailsAfter {
      RefuseKeeps(u, n);
    } else {
      HeldIsClaimed(s, o.key);
      assert forall m :: Holds(u, m) ==> Holds(s, m);
      assert !Held(u, o.key);
      forall i | 0 <= i < |u.answers| && u.answers[i].response.CallAnswered? ensures u.answers[i].key != o.key {
        assert AnswerOk(s, s.answers[i]);
      }
      MoveKeeps(u, n, Claimed(o));
    }
    EvolvesTrans(s, u, Step(s, Claim(n, fault)));
  }

  /** Moving on without calling the engine. */
  lemma QuietMoveKeeps(s: State, n: nat, g: Stage)
    requires Inv(s) && Holds(s, n) && g.order == s.live[n].order && (g.Invoked? || g.Ended?)
    ensures var t := s.(live := s.live[n := g]); Inv(t) && Evolves(s, t)
  {
    assert StageOk(s, n);
    HeldIsUnanswered(s, n);
    MoveKeeps(s, n, g);
  }

  /** One more call in the history: its key has none so far. */
  lemma CallKeeps(u: State, n: nat, t: State)
    requires Inv(u) && n in u.live && u.live[n].Invoked? && !KeyCalled(u.calls, u.live[n].order.key)
    requires t == u.(calls := u.calls + [Invocation(n, u.live[n].order.key)])
    ensures Inv(t) && Evolves(u, t)
  {
    var key := u.live[n].order.key;
    assert StageOk(u, n);
    assert t.calls[|u.calls|] == Invocation(n, key);
    assert forall m :: m != n && Called(t.calls, m) ==> Called(u.calls, m);
    assert forall k :: k != key && KeyCalled(t.calls, k) ==> KeyCalled(u.calls, k);
    CallLeavesLive(u, n, t);
    forall k | Held(t, k) ensures Held(u, k) {
      var m :| Holds(t, m) && t.live[m].order.key == k;
      assert Holds(u, m);
    }
    forall i | 0 <= i < |t.answers| ensures AnswerOk(t, t.answers[i]) { AnswersStay(u, t, i); }
  }

  lemma CallLeavesLive(u: State, n: nat, t: State)
    requires LiveOk(u) && n in u.live && u.live[n].Invoked?
    requires t == u.(calls := u.calls + [Invocation(n, u.live[n].order.key)])
    requires forall m :: m != n && Called(t.calls, m) ==> Called(u.calls, m)
    requires forall k :: k != u.live[n].order.key && KeyCalled(t.calls, k) ==> KeyCalled(u.calls, k)
    ensures LiveOk(t)
  {
    assert Holds(u, n);
    forall m | m in u.live && m != n && u.live[m].Claimed? ensures u.live[m].order.key != u.live[n].order.key {
      assert Holds(u, m);
    }
    assert StageOk(u, n) && StageOk(t, n);
    OthersStay(u, t, n);
  }

  /** The engine call itself. */
  lemma InvokeKeeps(s: State, n: nat)
    requires Inv(s)
    ensures var t := Step(s, Invoke(n)); Inv(t) && Evolves(s, t)
  {
    if n !in s.live || !s.live[n].Claimed? { return; }
    var o := s.live[n].order;
    var u := s.(live := s.live[n := Invoked(o)]);
    assert StageOk(s, n);
    QuietMoveKeeps(s, n, Invoked(o));
    CallKeeps(u, n, Step(s, Invoke(n)));
    EvolvesTrans(s, u, Step(s, Invoke(n)));
  }

  /** Leaving and recording the outcome in one step, before the answer. */
  lemma RecordKeeps(s: State, n: nat, status: Status)
    requires Inv(s) && Holds(s, n)
    ensures var k := s.live[n].order.key;
            var t := s.(live := s.live - {n}, rows := Completed(s.rows, k, status));
            Inv(t) && Evolves(s, t) && !Held(t, k) && k in t.rows && t.rows[k].status == status
  {
    var k := s.live[n].order.key;
    var t := s.(live := s.live - {n}, rows := Completed(s.rows, k, status));
    assert StageOk(s, n);
    OthersStay(s, t, n);
    assert Held(s, k);
    forall x | Held(t, x) ensures Held(s, x) && x != k {
      var m :| Holds(t, m) && t.live[m].order.key == x;
      assert Holds(s, m) && m != n;
    }
    forall i | 0 <= i < |t.answers| ensures AnswerOk(t, t.answers[i]) { AnswersStay(s, t, i); }
  }

  /** Leaving without having recorded anything. */
  lemma AbandonKeeps(s: State, n: nat)
    requires Inv(s) && Holds(s, n)
    ensures var k := s.live[n].order.key;
            var t := s.(live := s.live - {n});
            Inv(t) && Evolves(s, t) && !Held(t, k) && Open(t.rows, k)
  {
    var k, t := s.live[n].order.key, s.(live := s.live - {n});
    assert StageOk(s, n);
    LeaveKeeps(s, n);
    if Held(t, k) {
      var m :| Holds(t, m) && t.live[m].order.key == k;
      assert Holds(s, m) && m != n;
    }
  }

  lemma CompleteKeeps(s: State, n: nat, fault: Fault)
    requires Inv(s)
    ensures var t := Step(s, Complete(n, fault)); Inv(t) && Evolves(s, t)
  {
    if n !in s.live || !s.live[n].Ended? { return; }
    var o, status := s.live[n].order, s.live[n].status;
    assert StageOk(s, n) && Holds(s, n);
    var u := s.(live := s.live - {n},
                rows := if fault == FailsBefore then s.rows else Completed(s.rows, o.key, status));
    if fault == FailsBefore { AbandonKeeps(s, n); } else { RecordKeeps(s, n, status); }
    var t := Step(s, Complete(n, fault));
    var a := t.answers[|s.answers|];
    assert t == u.(answers := u.answers + [a]);
    AnswerKeeps(u, t, a);
    EvolvesTrans(s, u, t);
  }

  /** One step of any call, failing or not, keeps the fence. */
  lemma StepKeeps(s: State, e: Event)
    requires Inv(s)
    ensures Inv(Step(s, e)) && Evolves(s, Step(s, e))
  {
    match e
    case Receive(o) => ReceiveKeeps(s, o);
    case Claim(n, fault) => ClaimKeeps(s, n, fault);
    case Abort(n) =>
      if n in s.live && s.live[n].Claimed? && s.live[n].order.RestartOrder? {
        QuietMoveKeeps(s, n, Ended(s.live[n].order, ReceiptFailed, true));
      }
    case Invoke(n) => InvokeKeeps(s, n);
    case Return(n, result, raised) =>
      if n in s.live && s.live[n].Invoked? { QuietMoveKeeps(s, n, Step(s, e).live[n]); }
    case Complete(n, fault) => CompleteKeeps(s, n, fault);
    case Crash(n) => LeaveKeeps(s, n);
  }

  lemma {:induction false} RunKeeps(s: State, es: seq<Event>)
    requires Inv(s)
    ensures Inv(Run(s, es)) && Evolves(s, Run(s, es))
    decreases |es|
  {
    if es == [] { return; }
    var before := es[..|es| - 1];
    RunKeeps(s, before);
    StepKeeps(Run(s, before), es[|es| - 1]);
    EvolvesTrans(s, Run(s, before), Run(s, es));
  }

  // ----- what every run guarantees ---------------------------------------------

  /** Whatever calls arrive, however they interleave, fail or die: each key is
      claimed at most once and the engine called at most once for it, only
      after its claim; a call answered "refused" never calls the engine; and an
      answer never contradicts the stored status, then or later. */
  lemma FenceHolds(config: Config, es: seq<Event>, fs: seq<Event>)
    ensures
      var s := Run(Initial(config), es);
      var t := Run(s, fs);
      && (forall i, j :: 0 <= i < j < |t.claims| ==> t.claims[i] != t.claims[j])
      && (forall i, j :: 0 <= i < j < |t.calls| ==> t.calls[i].key != t.calls[j].key)
      && (forall i :: 0 <= i < |t.calls| ==> t.calls[i].key in t.claims)
      && (forall i, j :: 0 <= i < |s.answers| && s.answers[i].response == CallRefused && 0 <= j < |t.calls| ==>
            t.calls[j].call != s.answers[i].call)
      && (forall i :: 0 <= i < |s.answers| && s.answers[i].response.CallAnswered? ==>
            s.answers[i].key in t.rows
            && (t.rows[s.answers[i].key].status == s.answers[i].response.status
                || t.rows[s.answers[i].key].status == ReceiptCreated))
  {
    var s := Run(Initial(config), es);
    RunKeeps(Initial(config), es);
    RunKeeps(s, fs);
    var t := Run(s, fs);
    forall i | 0 <= i < |s.answers| ensures AnswerOk(t, s.answers[i]) {
      assert t.answers[i] == s.answers[i];
      assert AnswerOk(t, t.answers[i]);
    }
  }

  /** A status leaves ReceiptCreated at most once: as soon as it is anything
      else, the whole receipt is final. */
  lemma StatusIsFinal(config: Config, es: seq<Event>, fs: seq<Event>, k: FenceKey)
    requires k in Run(Initial(config), es).rows
    ensures var r := Run(Initial(config), es).rows[k];
            var t := Run(Run(Initial(config), es), fs);
            && k in t.rows && t.rows[k].(status := r.status) == r
            && (r.status != ReceiptCreated ==> t.rows[k] == r)
  {
    var s := Run(Initial(config), es);
    RunKeeps(Initial(config), es);
    RunKeeps(s, fs);
    assert RowEvolves(s, Run(s, fs), k);
  }

  // ----- the update handler as one call ----------------------------------------

  /** The steps of call `s.next` when nothing else happens meanwhile. */
  function Steps(s: State, o: Order, claimFault: Fault, result: EngineResult, completeFault: Fault): State {
    var n := s.next;
    Step(Step(Step(Step(Step(s, Receive(o)), Claim(n, claimFault)), Invoke(n)), Return(n, result, false)),
         Complete(n, completeFault))
  }

  /** What those steps come to, for an update. */
  lemma StepsAre(config: Config, rows: Rows, o: Order, claimFault: Fault, result: EngineResult, completeFault: Fault)
    requires o.UpdateOrder?
    ensures
      var t := Steps(Initial(config).(rows := rows), o, claimFault, result, completeFault);
      var claimed := rows[o.key := Receipt(o.capability, o.target, o.digest, ReceiptCreated)];
      if !Admissible(config, o) || o.key in rows || claimFault == FailsBefore then
        t.rows == rows && t.calls == [] && t.answers == [Answer(0, o.key, CallRefused)]
      else if claimFault == FailsAfter then
        t.rows == claimed && t.calls == [] && t.answers == [Answer(0, o.key, CallRefused)]
      else
        && t.rows == (if completeFault == FailsBefore then claimed
                      else claimed[o.key := claimed[o.key].(status := StatusOf(result))])
        && t.calls == [Invocation(0, o.key)] && t.answers == [Answer(0, o.key, CallAnswered(StatusOf(result)))]
  {
    var s := Initial(config).(rows := rows);
    var a := Step(s, Receive(o));
    if Admissible(config, o) {
      assert a.live == map[0 := Received(o)];
      var b := Step(a, Claim(0, claimFault));
      if !(o.key in rows || claimFault == FailsBefore || claimFault == FailsAfter) {
        assert b.live == map[0 := Claimed(o)];
        var d := Step(b, Invoke(0));
        assert d.live == map[0 := Invoked(o)];
        assert Step(d, Return(0, result, false)).live == map[0 := Ended(o, StatusOf(result), false)];
      }
    }
  }

  /** What makes an update request one the engine is asked to carry out: the two
      digests, and for a service update a scope and the adapter. */
  predicate Presentable(config: Config, o: Order)
    requires o.UpdateOrder?
  {
    && (o.capability == ExecuteUpdatePlan || o.capability == ExecuteServiceUpdate)
    && |o.planDigest| == 64 && |o.confirmationId| == 32
    && (forall c :: c in o.planDigest + o.confirmationId ==> c in "0123456789abcdef")
    && (if o.capability == ExecuteServiceUpdate || o.scope.Some?
        then config.hasAdapter && o.scope.Some? && |o.scope.value| >= 1 else config.hasEngine)
  }

  lemma HexIs(s: string, n: nat)
    ensures IsHex(s, n) <==> |s| == n && forall c :: c in s ==> c in "0123456789abcdef"
  {
    var digits := "0123456789abcdef";
    assert forall i :: 0 <= i < 10 ==> digits[i] == '0' + (i as char);
    assert forall i :: 10 <= i < 16 ==> digits[i] == 'a' + ((i - 10) as char);
    if |s| == n && forall c :: c in s ==> c in digits {
      forall i | 0 <= i < |s| ensures '0' <= s[i] <= '9' || 'a' <= s[i] <= 'f' { assert s[i] in digits; }
    }
    if IsHex(s, n) {
      forall c | c in s ensures c in digits {
        if c <= '9' { assert digits[c as int - '0' as int] == c; }
          else { assert digits[c as int - 'a' as int + 10] == c; }
      }
    }
  }

  lemma AdmissibleExactly(config: Config, o: Order)
    requires o.UpdateOrder?
    ensures Admissible(config, o) <==> Presentable(config, o)
  {
    HexIs(o.planDigest, 64);
    HexIs(o.confirmationId, 32);
    var both := o.planDigest + o.confirmationId;
    assert (forall c :: c in both ==> c in "0123456789abcdef") <==>
           (forall c :: c in o.planDigest ==> c in "0123456789abcdef")
           && (forall c :: c in o.confirmationId ==> c in "0123456789abcdef");
  }

  /** The status says what the engine said: success, failure, or that nobody
      knows. */
  predicate Tells(status: Status, result: EngineResult) {
    && (status == ReceiptSucceeded <==> result == Finished)
    && (status == ReceiptFailed <==> result == Unsuccessful)
    && (status == ReceiptUnknown <==> result == NeedsReconciliation || result == Interrupted)
  }

  /** `compose_executor_update_handler`: claim, call the engine, record, answer.
      The engine's answer and the store's failures are inputs. */
  class UpdateHandler {
    const config: Config
    const receipts: ReceiptStore
    var engineCalls: nat

    constructor (c: Config, r: ReceiptStore)
      ensures config == c && receipts == r && engineCalls == 0
    {
      config, receipts, engineCalls := c, r, 0;
    }

    /** A fresh view of the shared state, as this call finds it. */
    ghost function Start(): State
      reads this, receipts
    {
      Initial(config).(rows := receipts.rows)
    }

    method Handle(o: Order, claimFault: Fault, result: EngineResult, completeFault: Fault) returns (r: Response)
      requires o.UpdateOrder?
      modifies this, receipts
      ensures var t := Steps(old(Start()), o, claimFault, result, completeFault);
              && receipts.rows == t.rows && t.answers == [Answer(0, o.key, r)]
              && engineCalls == old(engineCalls) + |t.calls|
      ensures r == CallRefused ==> engineCalls == old(engineCalls)
      ensures r.CallAnswered? ==>
                && engineCalls == old(engineCalls) + 1 && o.key !in old(receipts.rows) && o.key in receipts.rows
                && (receipts.rows[o.key].status == r.status || receipts.rows[o.key].status == ReceiptCreated)
      ensures r.CallAnswered? <==> Presentable(config, o) && o.key !in old(receipts.rows) && claimFault == NoFault
      ensures if r.CallAnswered? then Tells(r.status, result) else r == CallRefused
      ensures r.CallAnswered? && completeFault != FailsBefore ==> receipts.rows[o.key].status == r.status
      ensures forall k :: k != o.key ==> (k in receipts.rows <==> k in old(receipts.rows))
      ensures forall k :: k != o.key && k in receipts.rows ==> receipts.rows[k] == old(receipts.rows)[k]
    {
      AdmissibleExactly(config, o);
      StepsAre(config, receipts.rows, o, claimFault, result, completeFault);
      if !Admissible(config, o) { return CallRefused; }
      if claimFault == FailsBefore { return CallRefused; }
      var won := receipts.Claim(o.key, Receipt(o.capability, o.target, o.digest, ReceiptCreated));
      if !won || claimFault == FailsAfter { return CallRefused; }
      engineCalls := engineCalls + 1;
      var status := StatusOf(result);
      if completeFault != FailsBefore { var recorded := receipts.Complete(o.key, status); }
      r := CallAnswered(status);
    }
  }

  // ----- the standalone restart as one call ---------------------------------------

  /** How the provider's part of a restart goes: it fails before the restart is
      issued, while issuing it, or it comes back. */
  datatype Provider = FailsEarly | FailsIssuing | Returns(result: EngineResult)

  function RestartSteps(s: State, o: Order, claimFault: Fault, p: Provider, completeFault: Fault): State {
    var n := s.next;
    Step(ProviderSteps(Step(Step(s, Receive(o)), Claim(n, claimFault)), n, p), Complete(n, completeFault))
  }

  function ProviderSteps(s: State, n: nat, p: Provider): State {
    match p
    case FailsEarly => Step(s, Abort(n))
    case FailsIssuing => Step(Step(s, Invoke(n)), Return(n, Unsuccessful, true))
    case Returns(result) => Step(Step(s, Invoke(n)), Return(n, result, false))
  }

  /** The provider's part of a call that has won its claim. */
  lemma ProviderStepsAre(s: State, o: Order, p: Provider)
    requires o.RestartOrder? && s.live == map[0 := Claimed(o)]
    ensures var t := ProviderSteps(s, 0, p);
            && t.rows == s.rows && t.answers == s.answers
            && t.live == map[0 := if p.Returns? then Ended(o, StatusOf(p.result), false)
                             else Ended(o, ReceiptFailed, true)]
            && t.calls == s.calls + (if p.FailsEarly? then [] else [Invocation(0, o.key)])
  {
    if !p.FailsEarly? { assert Step(s, Invoke(0)).live == map[0 := Invoked(o)]; }
  }

  /** Without a claim the remaining steps do nothing. */
  lemma NothingLeft(s: State, p: Provider, fault: Fault)
    requires s.live == map[]
    ensures Step(ProviderSteps(s, 0, p), Complete(0, fault)) == s
  {
  }

  lemma RestartStepsAre(config: Config, rows: Rows, o: Order, claimFault: Fault, p: Provider, completeFault: Fault)
    requires o.RestartOrder?
    ensures
      var t := RestartSteps(Initial(config).(rows := rows), o, claimFault, p, completeFault);
      var claimed := rows[o.key := Receipt(o.capability, o.target, o.digest, ReceiptCreated)];
      var status := if p.Returns? then StatusOf(p.result) else ReceiptFailed;
      if !o.envelopeValid || o.key in rows || claimFault == FailsBefore then
        t.rows == rows && t.calls == [] && t.answers == [Answer(0, o.key, CallRaised)]
      else if claimFault == FailsAfter then
        t.rows == claimed && t.calls == [] && t.answers == [Answer(0, o.key, CallRaised)]
      else
        && t.rows == (if completeFault == FailsBefore then claimed
                      else claimed[o.key := claimed[o.key].(status := status)])
        && t.calls == (if p.FailsEarly? then [] else [Invocation(0, o.key)])
        && t.answers == [Answer(0, o.key, if p.Returns? && completeFault == NoFault then CallAnswered(status)
                                else CallRaised)]
  {
    var a := Step(Initial(config).(rows := rows), Receive(o));
    var b := Step(a, Claim(0, claimFault));
    if o.envelopeValid { assert a.live == map[0 := Received(o)]; }
    if !o.envelopeValid || o.key in rows || claimFault == FailsBefore || claimFault == FailsAfter {
      assert b.live == map[];
      NothingLeft(b, p, completeFault);
    } else {
      assert b.live == map[0 := Claimed(o)];
      ProviderStepsAre(b, o, p);
    }
  }

  /** `StandaloneSystemdExecutor.execute_restart`. */
  class RestartExecutor {
    const receipts: ReceiptStore
    var restarts: nat

    constructor (r: ReceiptStore)
      ensures receipts == r && restarts == 0
    {
      receipts, restarts := r, 0;
    }

    method ExecuteRestart(o: Order, claimFault: Fault, p: Provider, completeFault: Fault) returns (r: Response)
      requires o.RestartOrder?
      modifies this, receipts
      ensures var t := RestartSteps(Initial(Config(false, false)).(rows := old(receipts.rows)), o, claimFault, p,
                                    completeFault);
              receipts.rows == t.rows && t.answers == [Answer(0, o.key, r)] && restarts == old(restarts) + |t.calls|
      ensures o.key in old(receipts.rows) ==> restarts == old(restarts) && receipts.rows == old(receipts.rows)
      ensures r.CallAnswered? ==> o.key in receipts.rows && receipts.rows[o.key].status == r.status
      ensures r.CallAnswered? <==>
                o.envelopeValid && o.key !in old(receipts.rows) && claimFault == NoFault
                && p.Returns? && completeFault == NoFault
      ensures if r.CallAnswered? then Tells(r.status, p.result) else r == CallRaised
      ensures o.envelopeValid && o.key !in old(receipts.rows) && claimFault == NoFault
              && completeFault != FailsBefore ==>
                && o.key in receipts.rows
                && if p.Returns? then Tells(receipts.rows[o.key].status, p.result)
                   else receipts.rows[o.key].status == ReceiptFailed
    {
      RestartStepsAre(Config(false, false), receipts.rows, o, claimFault, p, completeFault);
      if !o.envelopeValid || claimFault == FailsBefore { return CallRaised; }
      var won := receipts.Claim(o.key, Receipt(o.capability, o.target, o.digest, ReceiptCreated));
      if !won || claimFault == FailsAfter { return CallRaised; }
      if !p.FailsEarly? { restarts := restarts + 1; }
      var status := if p.Returns? then StatusOf(p.result) else ReceiptFailed;
      var recorded := false;
      if completeFault != FailsBefore { recorded := receipts.Complete(o.key, status); }
      r := if p.Returns? && recorded && completeFault == NoFault then CallAnswered(status) else CallRaised;
    }
  }
}
