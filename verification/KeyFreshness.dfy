/** Generated keys are new, so the three keys a worker publishes are always three different keys. */
module KeyFreshness {
  import opened Wrappers
  import opened RotatingKeys
  import opened KeyProtocol
  import opened KeyInvariant

  ghost predicate IsBelow(keySet: KeySet, bound: Key) {
    forall k :: k in keySet.Keys() ==> k < bound
  }

  predicate IsDistinct(keySet: KeySet) {
    && (keySet.IsComplete() ==> keySet.current.value.value != keySet.next.value.value)
    && (keySet.current.Some? ==> keySet.previous != Some(keySet.current.value.value))
    && (keySet.next.Some? ==> keySet.previous != Some(keySet.next.value.value))
  }

  ghost predicate FreshInv(s: State) {
    && (forall i :: 0 <= i < |s.saves| ==> IsDistinct(s.saves[i].keySet) && IsBelow(s.saves[i].keySet, s.nextKey))
    && (forall t :: t in s.jobs && s.jobs[t].task.RotateDecided? ==> IsFresh(s, s.jobs[t].task))
  }

  ghost predicate IsFresh(s: State, task: Task)
    requires task.RotateDecided?
  {
    task.rotation.fresh0 < task.rotation.fresh1 < s.nextKey && IsBelow(task.keySet, task.rotation.fresh0)
  }

  lemma RotationStaysDistinct(keySet: KeySet, rotation: Rotation, keysTtl: nat, bound: Key)
    requires IsDistinct(keySet) && IsBelow(keySet, rotation.fresh0) && rotation.fresh0 < rotation.fresh1 < bound
    requires Apply(keySet, rotation, keysTtl).Changed?
    ensures var r := Apply(keySet, rotation, keysTtl).keySet; IsDistinct(r) && IsBelow(r, bound)
  {
    var r := Apply(keySet, rotation, keysTtl).keySet;
    var a, b := rotation.fresh0, rotation.fresh1;
    assert keySet.current.Some? ==> keySet.current.value.value in keySet.Keys();
    assert keySet.next.Some? ==> keySet.next.value.value in keySet.Keys();
    assert keySet.previous.Some? ==> keySet.previous.value in keySet.Keys();
    assert forall k :: k in keySet.Keys() ==> k < a < b;
    assert forall k :: k in r.Keys() ==> k in keySet.Keys() || k in {rotation.fresh0, rotation.fresh1};
  }

  /** Nothing is saved, decided or generated. */
  predicate DecidesNothing(s: State, s': State) {
    && s'.saves == s.saves && s'.nextKey == s.nextKey
    && forall t :: t in s'.jobs && s'.jobs[t].task.RotateDecided? ==> t in s.jobs && s'.jobs[t] == s.jobs[t]
  }

  lemma OutsideDecidesNothing(s: State, a: Action, s': State, keysTtl: nat)
    requires Step(s, a, keysTtl) == Some(s') && IsOutside(a)
    ensures DecidesNothing(s, s')
  {
  }

  lemma TryLockDecidesNothing(s: State, token: Lease.Token, s': State)
    requires StepTryLock(s, token) == Some(s')
    ensures DecidesNothing(s, s')
  {
  }

  lemma FetchDecidesNothing(s: State, token: Lease.Token, s': State)
    requires StepFetch(s, token) == Some(s')
    ensures DecidesNothing(s, s')
  {
  }

  lemma UpdateDecidesNothing(s: State, token: Lease.Token, s': State)
    requires StepUpdate(s, token) == Some(s')
    ensures DecidesNothing(s, s')
  {
  }

  lemma DecidingNothingKeepsFresh(s: State, s': State)
    requires FreshInv(s) && DecidesNothing(s, s')
    ensures FreshInv(s')
  {
    forall t | t in s'.jobs && s'.jobs[t].task.RotateDecided? ensures IsFresh(s', s'.jobs[t].task) {
      assert IsFresh(s, s.jobs[t].task);
    }
  }

  lemma SaveKeepsFresh(s: State, token: Lease.Token, s': State, keysTtl: nat)
    requires FreshInv(s) && StepSave(s, token, keysTtl) == Some(s') && JobInv(s, token, keysTtl)
    ensures FreshInv(s')
  {
    var task := s.jobs[token].task;
    assert IsFresh(s, task);
    RotationStaysDistinct(task.keySet, task.rotation, keysTtl, s.nextKey);
    forall t | t in s'.jobs && s'.jobs[t].task.RotateDecided? ensures IsFresh(s', s'.jobs[t].task) {
      assert s'.jobs[t] == s.jobs[t];
    }
  }

  lemma DecideKeepsFresh(s: State, token: Lease.Token, s': State, keysTtl: nat)
    requires FreshInv(s) && StepDecide(s, token, keysTtl) == Some(s') && JobInv(s, token, keysTtl)
    ensures FreshInv(s')
  {
    assert s'.saves == s.saves && s.nextKey <= s'.nextKey;
    forall t | t in s'.jobs && s'.jobs[t].task.RotateDecided? ensures IsFresh(s', s'.jobs[t].task) {
      if t != token {
        assert s'.jobs[t] == s.jobs[t];
      }
    }
  }

  lemma StepKeepsFresh(s: State, a: Action, s': State, keysTtl: nat)
    requires keysTtl > 0 && Inv(s, keysTtl) && FreshInv(s) && Step(s, a, keysTtl) == Some(s')
    ensures FreshInv(s')
  {
    match a
    case SaveAndPublish(token) =>
      assert JobInv(s, token, keysTtl);
      SaveKeepsFresh(s, token, s', keysTtl);
    case Decide(token) =>
      assert JobInv(s, token, keysTtl);
      DecideKeepsFresh(s, token, s', keysTtl);
    case TryLock(token) =>
      TryLockDecidesNothing(s, token, s');
      DecidingNothingKeepsFresh(s, s');
    case Fetch(token) =>
      FetchDecidesNothing(s, token, s');
      DecidingNothingKeepsFresh(s, s');
    case Update(token) =>
      UpdateDecidesNothing(s, token, s');
      DecidingNothingKeepsFresh(s, s');
    case _ =>
      OutsideDecidesNothing(s, a, s', keysTtl);
      DecidingNothingKeepsFresh(s, s');
  }

  lemma StepStaysFresh(states: seq<State>, actions: seq<Action>, keysTtl: nat, i: nat)
    requires IsTimelyRun(states, actions, keysTtl) && i < |actions| && FreshInv(states[i])
    ensures FreshInv(states[i + 1])
  {
    RunKeepsInv(states, actions, keysTtl, i);
    StepKeepsFresh(states[i], actions[i], states[i + 1], keysTtl);
  }

  lemma {:induction false} RunStaysFresh(states: seq<State>, actions: seq<Action>, keysTtl: nat, i: nat)
    requires IsTimelyRun(states, actions, keysTtl) && i <= |actions|
    ensures FreshInv(states[i])
  {
    if i > 0 {
      RunStaysFresh(states, actions, keysTtl, i - 1);
      StepStaysFresh(states, actions, keysTtl, i - 1);
    }
  }

  /** In every run, the keys in a worker's JWK document are pairwise different. */
  lemma PublishedKeysAreDistinct(states: seq<State>, actions: seq<Action>, keysTtl: nat, i: nat, worker: Worker)
    requires IsTimelyRun(states, actions, keysTtl) && i <= |actions| && worker in states[i].active
    ensures states[i].active[worker].keySet.IsComplete()
    ensures var jwks := Published(Some(Activate(states[i].active[worker].keySet)));
            forall a, b :: 0 <= a < b < |jwks| ==> jwks[a] != jwks[b]
  {
    RunKeepsInv(states, actions, keysTtl, i);
    RunStaysFresh(states, actions, keysTtl, i);
    assert IsDistinct(states[i].active[worker].keySet);
  }
}
