/** The guarantees of key rotation across workers, over every run and every interleaving. */
module KeyTheorems {
  import opened Wrappers
  import opened RotatingKeys
  import opened KeyProtocol
  import opened KeyInvariant

  // ---- Installation and agreement ----

  /** A saved set is superseded only once `UpdateKeys` would reject it. */
  lemma SupersededIsUnusable(s: State, version: nat, keysTtl: nat)
    requires keysTtl > 0 && Inv(s, keysTtl) && version < Latest(s)
    ensures !s.saves[version].keySet.IsUsable(s.now)
  {
    assert IsRotationOf(s.saves[version], s.saves[version + 1], keysTtl);
    RotationKeepsShape(s.saves[version].keySet, s.saves[version + 1].rotation, keysTtl);
  }

  /** However late a key set reaches the key manager, it is installed only if it is the stored one. */
  lemma InstallsOnlyTheLatest(states: seq<State>, actions: seq<Action>, keysTtl: nat, i: nat)
    requires IsTimelyRun(states, actions, keysTtl) && i < |actions|
    requires actions[i].Update? && states[i + 1].active != states[i].active
    ensures var s, token := states[i], actions[i].token;
            && token in s.jobs && s.jobs[token].task == Install(s.stored, Latest(s))
            && states[i + 1].active == s.active[s.jobs[token].worker := Copy(s.stored, Latest(s))]
  {
    RunKeepsInv(states, actions, keysTtl, i);
    var s, token := states[i], actions[i].token;
    assert JobInv(s, token, keysTtl);
    var Install(keySet, version) := s.jobs[token].task;
    if version < Latest(s) {
      SupersededIsUnusable(s, version, keysTtl);
    }
  }

  lemma OnlyUpdateInstalls(s: State, a: Action, s': State, keysTtl: nat)
    requires Step(s, a, keysTtl) == Some(s') && s'.active != s.active
    ensures a.Update?
  {
  }

  lemma InstallStep(states: seq<State>, actions: seq<Action>, keysTtl: nat, worker: Worker, i: nat)
    requires IsTimelyRun(states, actions, keysTtl) && i < |actions|
    requires worker in states[i].active
    ensures worker in states[i + 1].active
    ensures states[i].active[worker].version <= states[i + 1].active[worker].version
  {
    if states[i + 1].active != states[i].active {
      OnlyUpdateInstalls(states[i], actions[i], states[i + 1], keysTtl);
      InstallsOnlyTheLatest(states, actions, keysTtl, i);
      assert states[i].active[worker].version <= Latest(states[i]) by {
        RunKeepsInv(states, actions, keysTtl, i);
      }
    }
  }

  /** No worker ever replaces an installed key set by an older one. */
  lemma {:induction false} InstallationNeverGoesBack(
    states: seq<State>, actions: seq<Action>, keysTtl: nat, worker: Worker, i: nat, j: nat)
    requires IsTimelyRun(states, actions, keysTtl) && i <= j <= |actions|
    requires worker in states[i].active
    ensures worker in states[j].active
    ensures states[i].active[worker].version <= states[j].active[worker].version
    decreases j - i
  {
    if i < j {
      InstallationNeverGoesBack(states, actions, keysTtl, worker, i, j - 1);
      InstallStep(states, actions, keysTtl, worker, j - 1);
    }
  }

  /** A worker whose signing key has not expired signs with the stored set. */
  predicate SignsWithLiveKey(s: State, worker: Worker) {
    worker in s.active && s.active[worker].keySet.IsComplete()
    && s.active[worker].keySet.current.value.IsAlive(s.now)
  }

  lemma WorkerAgreement(states: seq<State>, actions: seq<Action>, keysTtl: nat, i: nat, u: Worker, w: Worker)
    requires IsTimelyRun(states, actions, keysTtl) && i < |states|
    requires SignsWithLiveKey(states[i], u) && SignsWithLiveKey(states[i], w)
    ensures states[i].active[u] == states[i].active[w] == Copy(states[i].stored, Latest(states[i]))
  {
    RunKeepsInv(states, actions, keysTtl, i);
    var s := states[i];
    forall v | v in {u, w} ensures s.active[v] == Copy(s.stored, Latest(s)) {
      var version := s.active[v].version;
      assert s.active[v].keySet.IsOrdered();
      if version < Latest(s) {
        SupersededIsUnusable(s, version, keysTtl);
      }
    }
  }

  /**
   A worker that lags one save behind, when that save slid the window by one place: it publishes the
   key that up-to-date workers sign with, and they publish the key that it signs with.
   */
  lemma OneSaveBehind(states: seq<State>, actions: seq<Action>, keysTtl: nat, i: nat, lagging: Worker, upToDate: Worker)
    requires IsTimelyRun(states, actions, keysTtl) && i < |states|
    requires var s := states[i];
             && lagging in s.active && upToDate in s.active
             && s.active[lagging].version + 1 == Latest(s) == s.active[upToDate].version
             && Shifts(s.active[lagging].keySet, s.saves[Latest(s)].rotation.at) == 1
    ensures var before, after := states[i].active[lagging].keySet, states[i].active[upToDate].keySet;
            && before.IsComplete() && after.IsComplete()
            && Activate(after).current in Published(Some(Activate(before)))
            && Activate(before).current in Published(Some(Activate(after)))
  {
    RunKeepsInv(states, actions, keysTtl, i);
    var s := states[i];
    var before, after := s.active[lagging].keySet, s.active[upToDate].keySet;
    assert IsRotationOf(s.saves[Latest(s) - 1], s.saves[Latest(s)], keysTtl);
    assert after.current == before.next && after.previous == Some(before.current.value.value);
    assert Published(Some(Activate(before)))[1] == Activate(after).current;
    assert Published(Some(Activate(after)))[2] == Activate(before).current;
  }

  // ---- Rotation under the lock ----

  /**
   Every rotation that is saved is the rotation of the set that was stored at that moment, and it
   becomes the stored set: no concurrent rotation is overwritten.
   */
  lemma NoLostRotation(states: seq<State>, actions: seq<Action>, keysTtl: nat, i: nat)
    requires IsTimelyRun(states, actions, keysTtl) && i < |actions| && actions[i].SaveAndPublish?
    ensures var s, s' := states[i], states[i + 1];
            && s'.saves == s.saves + [s'.saves[Latest(s')]]
            && Apply(s.stored, s'.saves[Latest(s')].rotation, keysTtl) == Changed(s'.stored)
            && s'.stored.IsUsable(s'.saves[Latest(s')].rotation.at)
            && !s.stored.IsUsable(s.now)
  {
    RunKeepsInv(states, actions, keysTtl, i);
    LateStays(states, actions, keysTtl, i + 1);
    assert JobInv(states[i], actions[i].token, keysTtl);
    var rotation := states[i].jobs[actions[i].token].task.rotation;
    RotationKeepsShape(states[i].stored, rotation, keysTtl);
    RotationResult(states[i].stored, rotation.at, keysTtl, rotation.fresh0, rotation.fresh1, 0, 0);
  }

  /** No assertion of the two key handlers can fail in any run. */
  lemma NoAssertionFails(states: seq<State>, actions: seq<Action>, keysTtl: nat, i: nat, token: Lease.Token, now: int)
    requires IsTimelyRun(states, actions, keysTtl) && i < |states| && token in states[i].jobs
    ensures var task := states[i].jobs[token].task;
            && (task.RotateFetched? ==>
                  Rotate(task.keySet, now, keysTtl, 0, 0) != RotateAssertFailed
                  && StepDecide(states[i], token, keysTtl).Some?)
            && (task.Install? ==> task.keySet.IsOrdered())
            && (task.RotateDecided? ==> StepSave(states[i], token, keysTtl).Some?)
  {
    RunKeepsInv(states, actions, keysTtl, i);
    assert JobInv(states[i], token, keysTtl);
  }

  // ---- How long keys live ----

  lemma FirstSaveIsInitial(states: seq<State>, actions: seq<Action>, keysTtl: nat, i: nat)
    requires IsTimelyRun(states, actions, keysTtl) && i < |states|
    ensures states[i].saves != [] && states[i].saves[0].keySet.next.None?
  {
    HistoryGrows(states, actions, keysTtl, 0, i);
    assert states[0].saves[0] == states[i].saves[0];
  }

  /**
   In every save after the first, the next key expires `keysTtl` after the current one, and the current
   key is the live one of the save before, with the expiry it had there, or one generated for `keysTtl`
   from the rotation. So no current key expires later than that, except an imported one with which the
   run began. And nothing is rotated before its time: a live key stays, and in a complete set the current
   key has expired.
   */
  lemma KeyLife(states: seq<State>, actions: seq<Action>, keysTtl: nat, i: nat, v: nat)
    requires IsTimelyRun(states, actions, keysTtl) && i < |states| && 0 < v < |states[i].saves|
    ensures var before, after := states[i].saves[v - 1].keySet, states[i].saves[v].keySet;
            var at := states[i].saves[v].rotation.at;
            && after.IsComplete()
            && after.next.value.expires == after.current.value.expires + keysTtl
            && (|| (after.current == before.current && after.current.value.expires > at)
                || (after.current == before.next && after.current.value.expires > at)
                || after.current.value.expires == at + keysTtl)
            && (after.current.value.expires <= at + keysTtl || (v == 1 && after.current == before.current))
            && (before.current.Some? && before.current.value.expires > at ==>
                  after.current == before.current && before.next.None?)
            && (before.IsComplete() && before.next.value.expires > at ==>
                  before.current.value.expires <= at && after.current == before.next)
  {
    RunKeepsInv(states, actions, keysTtl, i);
    FirstSaveIsInitial(states, actions, keysTtl, i);
    RotationOfSave(states[i], keysTtl, v);
    if v > 1 {
      RotationOfSave(states[i], keysTtl, v - 1);
    }
  }

  lemma RotationOfSave(s: State, keysTtl: nat, v: nat)
    requires Inv(s, keysTtl) && 0 < v < |s.saves|
    ensures var before, after, at := s.saves[v - 1].keySet, s.saves[v].keySet, s.saves[v].rotation.at;
            && after.IsComplete()
            && after.next.value.expires == after.current.value.expires + keysTtl
            && after.current == (if before.current.Some? && before.current.value.IsAlive(at) then before.current
                                 else if before.next.Some? && before.next.value.IsAlive(at) then before.next
                                 else Some(Expiring(s.saves[v].rotation.fresh0, at + keysTtl)))
            && (before.IsComplete() ==> !before.IsUsable(at))
  {
    var before, r := s.saves[v - 1].keySet, s.saves[v].rotation;
    assert IsRotationOf(s.saves[v - 1], s.saves[v], keysTtl);
    RotationTimes(before, r.at, keysTtl, r.fresh0, r.fresh1);
  }

  // ---- Retention ----

  /** From one version to any later one: a key stays, or it had been expired for `keysTtl` at some save. */
  lemma {:induction false} KeptInHistory(s: State, key: Expiring, keysTtl: nat, v: nat, u: nat)
    requires keysTtl > 0 && Inv(s, keysTtl) && v <= u < |s.saves|
    requires s.saves[v].keySet.IsComplete() && key in [s.saves[v].keySet.current.value, s.saves[v].keySet.next.value]
    ensures s.saves[u].keySet.IsComplete()
    ensures IsKept(s.saves[u].keySet, key, keysTtl) || key.expires + keysTtl <= s.saves[u].savedAt
    decreases u - v
  {
    if v < u {
      KeptInHistory(s, key, keysTtl, v, u - 1);
      var before, after := s.saves[u - 1], s.saves[u];
      assert IsRotationOf(before, after, keysTtl);
      if IsKept(before.keySet, key, keysTtl) {
        RotationRetains(before.keySet, key, after.rotation.at, keysTtl, after.rotation.fresh0, after.rotation.fresh1);
      } else {
        RotationKeepsShape(before.keySet, after.rotation, keysTtl);
      }
    }
  }

  /**
   Once a key is current or next in a complete saved set, it is in the stored set at every moment
   until at least `keysTtl` after its expiry, through any number of single and double rotations.
   */
  lemma KeyRetention(states: seq<State>, actions: seq<Action>, keysTtl: nat, i: nat, v: nat, key: Expiring)
    requires IsTimelyRun(states, actions, keysTtl) && i < |states|
    requires v < |states[i].saves| && states[i].saves[v].keySet.IsComplete()
    requires key in [states[i].saves[v].keySet.current.value, states[i].saves[v].keySet.next.value]
    requires states[i].now < key.expires + keysTtl
    ensures key.value in states[i].stored.Keys()
    ensures forall u :: v <= u < |states[i].saves| ==> key.value in states[i].saves[u].keySet.Keys()
  {
    RunKeepsInv(states, actions, keysTtl, i);
    forall u | v <= u < |states[i].saves| ensures key.value in states[i].saves[u].keySet.Keys() {
      KeptInHistory(states[i], key, keysTtl, v, u);
    }
  }

  lemma {:induction false} HistoryGrows(states: seq<State>, actions: seq<Action>, keysTtl: nat, i: nat, j: nat)
    requires IsRun(states, actions, keysTtl) && i <= j < |states|
    ensures states[i].saves <= states[j].saves && states[i].now <= states[j].now
    decreases j - i
  {
    if i < j {
      HistoryGrows(states, actions, keysTtl, i, j - 1);
      HistoryStep(states[j - 1], actions[j - 1], states[j], keysTtl);
    }
  }

  lemma HistoryStep(s: State, a: Action, s': State, keysTtl: nat)
    requires Step(s, a, keysTtl) == Some(s')
    ensures s.saves <= s'.saves && s.now <= s'.now
  {
  }

  /**
   A token signed at step `i` with a key that had not expired can be verified for its whole life:
   while it has not expired itself, its key is in the stored set, and is published by every worker
   whose installed set is at least as new as the signer's was, expired or not. The signer is one of
   these, and so is every worker that signs with a live key. This is where `token_ttl <= keys_ttl` is
   needed.
   */
  lemma TokenStaysVerifiable(states: seq<State>, actions: seq<Action>, keysTtl: nat, tokenTtl: nat,
                             i: nat, j: nat, signer: Worker)
    requires IsTimelyRun(states, actions, keysTtl) && i <= j < |states|
    requires tokenTtl <= keysTtl
    requires SignsWithLiveKey(states[i], signer)
    requires states[j].now <= states[i].now + tokenTtl
    ensures var copy := states[i].active[signer];
            && copy.keySet.current.value.value in states[j].stored.Keys()
            && forall w :: IsAsNew(states[j], w, copy.version) ==>
                             Publishes(states[j], w, copy.keySet.current.value.value)
    ensures IsAsNew(states[j], signer, states[i].active[signer].version)
    ensures forall w :: SignsWithLiveKey(states[j], w) ==> IsAsNew(states[j], w, states[i].active[signer].version)
  {
    RunKeepsInv(states, actions, keysTtl, i);
    RunKeepsInv(states, actions, keysTtl, j);
    HistoryGrows(states, actions, keysTtl, i, j);
    InstallationNeverGoesBack(states, actions, keysTtl, signer, i, j);
    var copy := states[i].active[signer];
    var key := copy.keySet.current.value;
    KeyRetention(states, actions, keysTtl, j, copy.version, key);
    forall w | IsAsNew(states[j], w, copy.version)
      ensures Publishes(states[j], w, key.value)
    {
      PublishedKeys(states[j].active[w].keySet, key.value);
    }
    forall w | SignsWithLiveKey(states[j], w)
      ensures IsAsNew(states[j], w, copy.version)
    {
      WorkerAgreement(states, actions, keysTtl, j, w, w);
    }
  }

  predicate IsAsNew(s: State, worker: Worker, version: nat) {
    worker in s.active && version <= s.active[worker].version
  }

  predicate Publishes(s: State, worker: Worker, key: Key) {
    && worker in s.active && s.active[worker].keySet.IsComplete()
    && key in Published(Some(Activate(s.active[worker].keySet)))
  }

  /** The JWK document of a worker holds exactly the keys of the set it installed. */
  lemma PublishedKeys(keySet: KeySet, key: Key)
    requires keySet.IsComplete()
    ensures key in Published(Some(Activate(keySet))) <==> key in keySet.Keys()
  {
    var p := Published(Some(Activate(keySet)));
    assert p[0] == keySet.current.value.value && p[1] == keySet.next.value.value;
    assert keySet.previous.Some? ==> p[2] == keySet.previous.value;
  }
}
