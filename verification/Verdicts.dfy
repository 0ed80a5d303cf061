/** What a receipt's status says about the engine: in every run, a status other
    than "created" is what the one return of the engine for that key was. */
module Verdicts {
  import opened Types
  import opened Fence

  /** In state `s`, event `e` decides the status of the key: the engine returns
      for it, or a restart fails around the provider. */
  predicate Decides(s: State, e: Event, key: FenceKey) {
    || (e.Return? && e.n in s.live && s.live[e.n].Invoked? && s.live[e.n].order.key == key)
    || (e.Abort? && e.n in s.live && s.live[e.n].Claimed? && s.live[e.n].order.RestartOrder?
        && s.live[e.n].order.key == key)
  }

  /** The status such an event stands for. */
  predicate Means(s: State, e: Event, key: FenceKey, status: Status)
    requires Decides(s, e, key)
  {
    if e.Abort? || (s.live[e.n].order.RestartOrder? && e.raised) then status == ReceiptFailed
    else Tells(status, e.result)
  }

  /** Event `j` of the run decided the key's status, and as `status`. */
  ghost predicate DecidedAs(config: Config, es: seq<Event>, j: nat, key: FenceKey, status: Status) {
    && j < |es| && Decides(Run(Initial(config), es[..j]), es[j], key)
    && Means(Run(Initial(config), es[..j]), es[j], key, status)
  }

  ghost predicate Justified(config: Config, es: seq<Event>, key: FenceKey, status: Status) {
    exists j: nat :: DecidedAs(config, es, j, key, status)
  }

  ghost predicate Decided(config: Config, es: seq<Event>, j: nat, key: FenceKey) {
    j < |es| && Decides(Run(Initial(config), es[..j]), es[j], key)
  }

  lemma JustifiedLater(config: Config, es: seq<Event>, e: Event, key: FenceKey, status: Status)
    requires Justified(config, es, key, status)
    ensures Justified(config, es + [e], key, status)
  {
    var j: nat :| DecidedAs(config, es, j, key, status);
    assert (es + [e])[..j] == es[..j];
    assert DecidedAs(config, es + [e], j, key, status);
  }

  /** All statuses around are justified by the run so far. */
  ghost predicate Sound(config: Config, es: seq<Event>, s: State) {
    && (forall k :: k in s.rows && s.rows[k].status != ReceiptCreated ==> Justified(config, es, k, s.rows[k].status))
    && (forall n :: n in s.live && s.live[n].Ended? ==> Justified(config, es, s.live[n].order.key, s.live[n].status))
    && (forall i :: 0 <= i < |s.answers| && s.answers[i].response.CallAnswered? ==>
          Justified(config, es, s.answers[i].key, s.answers[i].response.status))
  }

  /** The call has heard from the engine and not yet recorded it. */
  predicate Carries(s: State, n: nat, key: FenceKey, status: Status) {
    n in s.live && s.live[n].Ended? && s.live[n].order.key == key && s.live[n].status == status
  }

  /** A step invents no status: each that appears was there already, on the way
      from the engine to the row and the answer, or is decided by this event. */
  ghost predicate NothingInvented(s: State, e: Event, t: State) {
    && (forall k :: k in t.rows && t.rows[k].status != ReceiptCreated ==>
          || (k in s.rows && s.rows[k].status == t.rows[k].status)
          || (exists n :: Carries(s, n, k, t.rows[k].status)))
    && (forall n :: n in t.live && t.live[n].Ended? ==>
          || (n in s.live && s.live[n] == t.live[n])
          || (Decides(s, e, t.live[n].order.key) && Means(s, e, t.live[n].order.key, t.live[n].status)))
    && (forall i :: 0 <= i < |t.answers| && t.answers[i].response.CallAnswered? ==>
          || (i < |s.answers| && s.answers[i] == t.answers[i])
          || (exists n :: Carries(s, n, t.answers[i].key, t.answers[i].response.status)))
  }

  lemma StepInventsNothing(s: State, e: Event)
    ensures NothingInvented(s, e, Step(s, e))
  {
    if e.Complete? && e.n in s.live && s.live[e.n].Ended? {
      assert Carries(s, e.n, s.live[e.n].order.key, s.live[e.n].status);
    }
  }

  lemma SoundGoesOn(config: Config, es: seq<Event>, e: Event, s: State, t: State)
    requires s == Run(Initial(config), es) && Sound(config, es, s) && NothingInvented(s, e, t)
    ensures Sound(config, es + [e], t)
  {
    forall k, status | Justified(config, es, k, status) ensures Justified(config, es + [e], k, status) {
      JustifiedLater(config, es, e, k, status);
    }
    forall n | n in t.live && t.live[n].Ended?
      ensures Justified(config, es + [e], t.live[n].order.key, t.live[n].status) {
      if !(n in s.live && s.live[n] == t.live[n]) {
        assert (es + [e])[..|es|] == es;
        assert DecidedAs(config, es + [e], |es|, t.live[n].order.key, t.live[n].status);
      }
    }
  }

  lemma {:induction false} RunIsSound(config: Config, es: seq<Event>)
    ensures Sound(config, es, Run(Initial(config), es))
    decreases |es|
  {
    if es == [] { return; }
    var before, e := es[..|es| - 1], es[|es| - 1];
    RunIsSound(config, before);
    StepInventsNothing(Run(Initial(config), before), e);
    SoundGoesOn(config, before, e, Run(Initial(config), before), Run(Initial(config), es));
    assert before + [e] == es;
  }

  // ----- once only ------------------------------------------------------------

  /** The key has been claimed, and no call is still on its way to the engine
      with it. */
  ghost predicate Past(s: State, key: FenceKey) {
    key in s.rows && forall n :: n in s.live && s.live[n].order.key == key ==>
        !s.live[n].Claimed? && !s.live[n].Invoked?
  }

  lemma DecidingIsPast(s: State, e: Event, key: FenceKey)
    requires Inv(s) && Decides(s, e, key)
    ensures Past(Step(s, e), key)
  {
    var t := Step(s, e);
    assert StageOk(s, e.n) && Holds(s, e.n);
    forall n | n in t.live && t.live[n].order.key == key ensures !t.live[n].Claimed? && !t.live[n].Invoked? {
      if n != e.n && !s.live[n].Received? { assert Holds(s, n); }
    }
  }

  lemma PastStays(s: State, e: Event, key: FenceKey)
    requires Past(s, key)
    ensures Past(Step(s, e), key) && !Decides(s, e, key)
  {
  }

  lemma {:induction false} DecidedMeansPast(config: Config, es: seq<Event>, j: nat, key: FenceKey)
    requires Decided(config, es, j, key)
    ensures Past(Run(Initial(config), es), key)
    decreases |es|
  {
    var before, e := es[..|es| - 1], es[|es| - 1];
    var s := Run(Initial(config), before);
    RunKeeps(Initial(config), before);
    if j == |es| - 1 {
      DecidingIsPast(s, e, key);
    } else {
      assert before[..j] == es[..j];
      DecidedMeansPast(config, before, j, key);
      PastStays(s, e, key);
    }
  }

  /** The status of a key is decided at most once in a run. */
  lemma DecidedOnce(config: Config, es: seq<Event>, i: nat, j: nat, key: FenceKey)
    requires Decided(config, es, i, key) && Decided(config, es, j, key)
    ensures i == j
  {
    if i < j {
      assert es[..j][..i] == es[..i];
      DecidedMeansPast(config, es[..j], i, key);
      PastStays(Run(Initial(config), es[..j]), es[j], key);
    } else if j < i {
      assert es[..i][..j] == es[..j];
      DecidedMeansPast(config, es[..i], j, key);
      PastStays(Run(Initial(config), es[..i]), es[i], key);
    }
  }

  /** Over all runs, with any interleaving, store failure and crash: a stored
      status and an answer say what the engine's return for that key was, which
      happened exactly once; so in particular "succeeded" is stored or answered
      only for a key whose engine call finished. */
  lemma StatusIsTrue(config: Config, es: seq<Event>)
    ensures
      var s := Run(Initial(config), es);
      && (forall k :: k in s.rows && s.rows[k].status != ReceiptCreated ==> Justified(config, es, k, s.rows[k].status))
      && (forall i :: 0 <= i < |s.answers| && s.answers[i].response.CallAnswered? ==>
            Justified(config, es, s.answers[i].key, s.answers[i].response.status))
      && (forall i: nat, j: nat, k :: Decided(config, es, i, k) && Decided(config, es, j, k) ==> i == j)
  {
    RunIsSound(config, es);
    forall i: nat, j: nat, k | Decided(config, es, i, k) && Decided(config, es, j, k) ensures i == j {
      DecidedOnce(config, es, i, j, k);
    }
  }

  /** The other way round: once the engine has returned for a key, the receipt is
      open until it is completed, and then says what was returned. */
  lemma ReturnIsKept(config: Config, es: seq<Event>, j: nat, key: FenceKey)
    requires Decided(config, es, j, key)
    ensures var s := Run(Initial(config), es);
            && key in s.rows
            && (s.rows[key].status == ReceiptCreated || DecidedAs(config, es, j, key, s.rows[key].status))
  {
    var s := Run(Initial(config), es);
    DecidedMeansPast(config, es, j, key);
    RunIsSound(config, es);
    if s.rows[key].status != ReceiptCreated {
      var i: nat :| DecidedAs(config, es, i, key, s.rows[key].status);
      DecidedOnce(config, es, i, j, key);
    }
  }
}
