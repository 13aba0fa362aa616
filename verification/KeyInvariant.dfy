/** What every step of the key protocol keeps, and what that gives for every run. */
module KeyInvariant {
  import opened Wrappers
  import opened RotatingKeys
  import opened KeyProtocol

  /** Each saved set is the rotation of the one before it, and the last one is stored. */
  ghost predicate HistoryInv(s: State, keysTtl: nat) {
    && s.saves != []
    && s.stored == s.saves[Latest(s)].keySet
    && (forall i :: 0 <= i < |s.saves| ==>
          s.saves[i].keySet.IsOrdered() && IsSpaced(s.saves[i].keySet, keysTtl) && s.saves[i].savedAt <= s.now)
    && (forall i :: 0 < i < |s.saves| ==> IsRotationOf(s.saves[i - 1], s.saves[i], keysTtl))
  }

  predicate IsRotationOf(before: Save, after: Save, keysTtl: nat) {
    && Apply(before.keySet, after.rotation, keysTtl) == Changed(after.keySet)
    && after.rotation.at <= after.savedAt
    && before.savedAt <= after.savedAt
  }

  predicate IsCopy(s: State, keySet: KeySet, version: nat) {
    version < |s.saves| && keySet == s.saves[version].keySet
  }

  /** Every key set in flight or installed is an exact copy of a save; a lock owner's is the latest. */
  predicate JobInv(s: State, token: Lease.Token, keysTtl: nat)
    requires token in s.jobs
  {
    match s.jobs[token].task
    case Install(keySet, version) => IsCopy(s, keySet, version)
    case RotateFetched(keySet, version) =>
      IsCopy(s, keySet, version) && (OwnsLock(s, token) ==> version == Latest(s))
    case RotateDecided(keySet, version, rotation) =>
      && IsCopy(s, keySet, version) && (OwnsLock(s, token) ==> version == Latest(s))
      && Apply(keySet, rotation, keysTtl).Changed? && rotation.at <= s.now
    case _ => true
  }

  predicate JobsInv(s: State, keysTtl: nat) {
    forall t :: t in s.jobs ==> t < s.nextToken && JobInv(s, t, keysTtl)
  }

  ghost predicate Inv(s: State, keysTtl: nat) {
    && HistoryInv(s, keysTtl)
    && JobsInv(s, keysTtl)
    && (s.lock.Some? ==> s.lock.value.token < s.nextToken)
    && (forall w :: w in s.active ==> IsCopy(s, s.active[w].keySet, s.active[w].version)
                                      && s.active[w].keySet.IsComplete())
  }

  lemma InitInv(s: State, keysTtl: nat)
    requires IsInit(s)
    ensures Inv(s, keysTtl)
  {
  }

  /** A rotation keeps sets ordered and spaced. */
  lemma RotationKeepsShape(keySet: KeySet, rotation: Rotation, keysTtl: nat)
    requires keysTtl > 0 && keySet.IsOrdered() && IsSpaced(keySet, keysTtl)
    requires Apply(keySet, rotation, keysTtl).Changed?
    ensures var r := Apply(keySet, rotation, keysTtl).keySet;
            r.IsComplete() && r.IsOrdered() && IsSpaced(r, keysTtl)
            && !keySet.IsUsable(rotation.at)
  {
  }

  /** The new save is the rotation of the stored set, which the owner of the lock has in hand. */
  lemma SaveKeepsHistory(s: State, token: Lease.Token, s': State, keysTtl: nat)
    requires keysTtl > 0 && HistoryInv(s, keysTtl)
    requires StepSave(s, token, keysTtl) == Some(s') && OwnsLock(s, token) && JobInv(s, token, keysTtl)
    ensures HistoryInv(s', keysTtl)
  {
    var task := s.jobs[token].task;
    RotationKeepsShape(task.keySet, task.rotation, keysTtl);
    assert s'.saves[..|s.saves|] == s.saves;
    assert Latest(s') == |s.saves|;
    assert IsRotationOf(s.saves[Latest(s)], s'.saves[Latest(s')], keysTtl);
  }

  lemma SaveKeepsJob(s: State, token: Lease.Token, s': State, keysTtl: nat, t: Lease.Token)
    requires StepSave(s, token, keysTtl) == Some(s') && OwnsLock(s, token)
    requires t in s.jobs && JobInv(s, t, keysTtl)
    ensures JobInv(s', t, keysTtl)
  {
    assert s'.saves[..|s.saves|] == s.saves;
    if t != token {
      assert s'.jobs[t] == s.jobs[t] && !OwnsLock(s', t);
    }
  }

  lemma SavedOnTime(s: State, token: Lease.Token, s': State, keysTtl: nat)
    requires StepSave(s, token, keysTtl) == Some(s')
    ensures s'.jobs.Keys == s.jobs.Keys && s'.nextToken == s.nextToken && s'.lock == s.lock && s'.active == s.active
    ensures s.saves <= s'.saves && (!s'.late ==> OwnsLock(s, token))
  {
  }

  lemma SaveKeepsInv(s: State, token: Lease.Token, s': State, keysTtl: nat)
    requires keysTtl > 0 && Inv(s, keysTtl)
    requires StepSave(s, token, keysTtl) == Some(s') && !s'.late
    ensures Inv(s', keysTtl)
  {
    assert JobInv(s, token, keysTtl);
    SavedOnTime(s, token, s', keysTtl);
    SaveKeepsHistory(s, token, s', keysTtl);
    forall t | t in s'.jobs ensures t < s'.nextToken && JobInv(s', t, keysTtl) {
      SaveKeepsJob(s, token, s', keysTtl, t);
    }
  }

  /** A job that a step does not touch keeps what holds of it, unless it gains the lock. */
  lemma UntouchedJob(s: State, s': State, t: Lease.Token, keysTtl: nat)
    requires t in s.jobs && JobInv(s, t, keysTtl)
    requires t in s'.jobs && s'.jobs[t] == s.jobs[t]
    requires s'.saves == s.saves && s.now <= s'.now
    requires OwnsLock(s', t) ==> OwnsLock(s, t)
    ensures JobInv(s', t, keysTtl)
  {
  }

  lemma JobsKept(s: State, s': State, token: Lease.Token, keysTtl: nat)
    requires JobsInv(s, keysTtl)
    requires s'.saves == s.saves && s.now <= s'.now && s.nextToken <= s'.nextToken
    requires forall t :: t in s'.jobs && t in s.jobs && t != token ==>
               s'.jobs[t] == s.jobs[t] && (OwnsLock(s', t) ==> OwnsLock(s, t))
    requires forall t :: t in s'.jobs && (t == token || t !in s.jobs) ==> t < s'.nextToken && JobInv(s', t, keysTtl)
    ensures JobsInv(s', keysTtl)
  {
    forall t | t in s'.jobs ensures t < s'.nextToken && JobInv(s', t, keysTtl) {
      if t in s.jobs && t != token {
        UntouchedJob(s, s', t, keysTtl);
      }
    }
  }

  /** A step that leaves tasks, copies and history alone; the lock may go. */
  lemma QuietStepKeepsInv(s: State, s': State, keysTtl: nat)
    requires Inv(s, keysTtl)
    requires s'.jobs == s.jobs && s'.nextToken == s.nextToken && s'.active == s.active
    requires s'.saves == s.saves && s'.stored == s.stored && s.now <= s'.now
    requires s'.lock == s.lock || s'.lock.None?
    ensures Inv(s', keysTtl)
  {
    JobsKept(s, s', s.nextToken, keysTtl);
  }

  /** A new task that has nothing in hand yet. */
  lemma SpawnKeepsInv(s: State, worker: Worker, task: Task, keysTtl: nat)
    requires Inv(s, keysTtl) && (task.UpdateWaiting? || task.RotateWaiting?)
    ensures Inv(Spawn(s, worker, task), keysTtl)
  {
    JobsKept(s, Spawn(s, worker, task), s.nextToken, keysTtl);
  }

  /** A task that goes on to its next phase. */
  lemma BecomeKeepsInv(s: State, token: Lease.Token, task: Task, keysTtl: nat)
    requires Inv(s, keysTtl) && token in s.jobs && JobInv(Become(s, token, task), token, keysTtl)
    ensures Inv(Become(s, token, task), keysTtl)
  {
    JobsKept(s, Become(s, token, task), token, keysTtl);
  }

  predicate IsOutside(a: Action) {
    a.Tick? || a.Subscribe? || a.FirstFetch? || a.Receive? || a.TimerFires? || a.RunUnlock?
  }

  /** Steps outside the tasks: time, subscriptions, timers and unlock scripts. */
  lemma OutsideStepKeepsInv(s: State, a: Action, s': State, keysTtl: nat)
    requires Inv(s, keysTtl) && Step(s, a, keysTtl) == Some(s')
    requires IsOutside(a)
    ensures Inv(s', keysTtl)
  {
    match a
    case FirstFetch(w) =>
      var started := s.(starting := s.starting - {w});
      QuietStepKeepsInv(s, started, keysTtl);
      SpawnKeepsInv(started, w, UpdateWaiting, keysTtl);
    case Receive(w) =>
      var rest := s.(inbox := s.inbox[w := s.inbox[w][1..]]);
      QuietStepKeepsInv(s, rest, keysTtl);
      SpawnKeepsInv(rest, w, UpdateWaiting, keysTtl);
    case TimerFires(w) => SpawnKeepsInv(s, w, RotateWaiting, keysTtl);
    case _ => QuietStepKeepsInv(s, s', keysTtl);
  }

  /** Taking the lock with nothing in hand. */
  lemma LockKeepsInv(s: State, token: Lease.Token, lock: Lease.Lock, keysTtl: nat)
    requires Inv(s, keysTtl) && token in s.jobs && lock.token == token
    requires s.jobs[token].task.UpdateWaiting? || s.jobs[token].task.RotateWaiting?
    ensures Inv(s.(lock := Some(lock)), keysTtl)
  {
    var s' := s.(lock := Some(lock));
    assert JobInv(s, token, keysTtl);
    JobsKept(s, s', token, keysTtl);
  }

  lemma TryLockKeepsInv(s: State, token: Lease.Token, s': State, keysTtl: nat)
    requires Inv(s, keysTtl) && StepTryLock(s, token) == Some(s')
    ensures Inv(s', keysTtl)
  {
    if s' != s {
      var lock := Lease.Lock(token, s.now + Lease.LOCK_TTL);
      LockKeepsInv(s, token, lock, keysTtl);
      BecomeKeepsInv(s.(lock := Some(lock)), token, s'.jobs[token].task, keysTtl);
    }
  }

  lemma FetchKeepsInv(s: State, token: Lease.Token, s': State, keysTtl: nat)
    requires Inv(s, keysTtl) && StepFetch(s, token) == Some(s')
    ensures Inv(s', keysTtl)
  {
    assert JobInv(s, token, keysTtl);
    QuietStepKeepsInv(s, DropGuard(s, token), keysTtl);
    if s.jobs[token].task.UpdateLocked? {
      BecomeKeepsInv(DropGuard(s, token), token, Install(s.stored, Latest(s)), keysTtl);
    } else {
      BecomeKeepsInv(s, token, RotateFetched(s.stored, Latest(s)), keysTtl);
    }
  }

  lemma DecideKeepsInv(s: State, token: Lease.Token, s': State, keysTtl: nat)
    requires Inv(s, keysTtl) && StepDecide(s, token, keysTtl) == Some(s')
    ensures Inv(s', keysTtl)
  {
    assert JobInv(s, token, keysTtl);
    var RotateFetched(keySet, version) := s.jobs[token].task;
    var rotation := Rotation(s.now, s.nextKey, s.nextKey + 1);
    if Apply(keySet, rotation, keysTtl).Changed? {
      DecidedKeepsInv(s, token, RotateDecided(keySet, version, rotation), s', keysTtl);
    } else {
      FinishedKeepsInv(s, token, s', keysTtl);
    }
  }

  lemma DecidedKeepsInv(s: State, token: Lease.Token, task: Task, s': State, keysTtl: nat)
    requires Inv(s, keysTtl) && token in s.jobs && task.RotateDecided?
    requires s' == Become(s.(nextKey := s.nextKey + 2), token, task) && JobInv(s', token, keysTtl)
    ensures Inv(s', keysTtl)
  {
    JobsKept(s, s', token, keysTtl);
  }

  lemma FinishedKeepsInv(s: State, token: Lease.Token, s': State, keysTtl: nat)
    requires Inv(s, keysTtl) && token in s.jobs && s' == Finish(DropGuard(s, token), token)
    ensures Inv(s', keysTtl)
  {
    JobsKept(s, s', token, keysTtl);
  }

  lemma UpdateKeepsInv(s: State, token: Lease.Token, s': State, keysTtl: nat)
    requires Inv(s, keysTtl) && StepUpdate(s, token) == Some(s')
    ensures Inv(s', keysTtl)
  {
    assert JobInv(s, token, keysTtl);
    var Job(worker, Install(keySet, version)) := s.jobs[token];
    if keySet.IsUsable(s.now) {
      InstalledKeepsInv(s, token, worker, Copy(keySet, version), s', keysTtl);
    } else {
      RestartedKeepsInv(s, token, s', keysTtl);
    }
  }

  lemma InstalledKeepsInv(s: State, token: Lease.Token, worker: Worker, copy: Copy, s': State, keysTtl: nat)
    requires Inv(s, keysTtl) && IsCopy(s, copy.keySet, copy.version) && copy.keySet.IsComplete()
    requires s' == Finish(s.(active := s.active[worker := copy]), token)
    ensures Inv(s', keysTtl)
  {
    JobsKept(s, s', token, keysTtl);
  }

  lemma RestartedKeepsInv(s: State, token: Lease.Token, s': State, keysTtl: nat)
    requires Inv(s, keysTtl) && token in s.jobs && s' == Restart(s, token, RotateWaiting)
    ensures Inv(s', keysTtl)
  {
    JobsKept(s, s', token, keysTtl);
  }

  lemma StepKeepsInv(s: State, a: Action, s': State, keysTtl: nat)
    requires keysTtl > 0 && Inv(s, keysTtl)
    requires Step(s, a, keysTtl) == Some(s') && !s'.late
    ensures Inv(s', keysTtl)
  {
    match a
    case SaveAndPublish(token) => SaveKeepsInv(s, token, s', keysTtl);
    case TryLock(token) => TryLockKeepsInv(s, token, s', keysTtl);
    case Fetch(token) => FetchKeepsInv(s, token, s', keysTtl);
    case Decide(token) => DecideKeepsInv(s, token, s', keysTtl);
    case Update(token) => UpdateKeepsInv(s, token, s', keysTtl);
    case _ => OutsideStepKeepsInv(s, a, s', keysTtl);
  }

  /** A run in which every save was made within the lease of its lock. */
  predicate IsTimelyRun(states: seq<State>, actions: seq<Action>, keysTtl: nat) {
    keysTtl > 0 && IsRun(states, actions, keysTtl) && !states[|actions|].late
  }

  lemma LateStep(s: State, a: Action, s': State, keysTtl: nat)
    requires Step(s, a, keysTtl) == Some(s') && s.late
    ensures s'.late
  {
  }

  lemma {:induction false} LateStays(states: seq<State>, actions: seq<Action>, keysTtl: nat, i: nat)
    requires IsTimelyRun(states, actions, keysTtl) && i <= |actions|
    ensures !states[i].late
    decreases |actions| - i
  {
    if i < |actions| {
      LateStays(states, actions, keysTtl, i + 1);
      if states[i].late {
        LateStep(states[i], actions[i], states[i + 1], keysTtl);
      }
    }
  }

  lemma {:induction false} RunKeepsInv(states: seq<State>, actions: seq<Action>, keysTtl: nat, i: nat)
    requires IsTimelyRun(states, actions, keysTtl) && i <= |actions|
    ensures Inv(states[i], keysTtl)
  {
    LateStays(states, actions, keysTtl, i);
    if i == 0 {
      InitInv(states[0], keysTtl);
    } else {
      RunKeepsInv(states, actions, keysTtl, i - 1);
      StepKeepsInv(states[i - 1], actions[i - 1], states[i], keysTtl);
    }
  }
}
