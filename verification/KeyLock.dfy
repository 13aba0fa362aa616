/** The lock around fetches and rotations: every task that got it gives it back. */
module KeyLock {
  import opened Wrappers
  import opened KeyProtocol

  /** Between taking the lock and dropping the guard. */
  predicate IsInside(task: Task) {
    task.UpdateLocked? || task.RotateLocked? || task.RotateFetched? || task.RotateDecided?
  }

  predicate IsWorkingUnder(s: State, token: Lease.Token) {
    token in s.jobs && IsInside(s.jobs[token].task)
  }

  /** Whoever holds the lock is inside, or its unlock script is under way; nobody is in both places. */
  ghost predicate GuardInv(s: State) {
    && (!Lease.IsFree(s.lock, s.now) ==> IsWorkingUnder(s, s.lock.value.token) || s.lock.value.token in s.unlocking)
    && (forall t :: t in s.unlocking ==> !IsWorkingUnder(s, t))
    && (forall t :: t in s.unlocking || t in s.jobs ==> t < s.nextToken)
    && (forall t :: t in s.jobs && IsWaiting(s.jobs[t].task) ==> t !in s.unlocking)
  }

  predicate IsWaiting(task: Task) { task.UpdateWaiting? || task.RotateWaiting? }

  lemma OutsideKeepsGuard(s: State, a: Action, s': State, keysTtl: nat)
    requires GuardInv(s) && Step(s, a, keysTtl) == Some(s')
    requires a.Tick? || a.Subscribe? || a.FirstFetch? || a.Receive? || a.TimerFires? || a.RunUnlock?
    ensures GuardInv(s')
  {
  }

  lemma TryLockKeepsGuard(s: State, token: Lease.Token, s': State)
    requires GuardInv(s) && StepTryLock(s, token) == Some(s')
    ensures GuardInv(s')
  {
  }

  lemma FetchKeepsGuard(s: State, token: Lease.Token, s': State)
    requires GuardInv(s) && StepFetch(s, token) == Some(s')
    ensures GuardInv(s')
  {
  }

  lemma DecideKeepsGuard(s: State, token: Lease.Token, s': State, keysTtl: nat)
    requires GuardInv(s) && StepDecide(s, token, keysTtl) == Some(s')
    ensures GuardInv(s')
  {
  }

  lemma SaveKeepsGuard(s: State, token: Lease.Token, s': State, keysTtl: nat)
    requires GuardInv(s) && StepSave(s, token, keysTtl) == Some(s')
    ensures GuardInv(s')
  {
  }

  lemma UpdateKeepsGuard(s: State, token: Lease.Token, s': State)
    requires GuardInv(s) && StepUpdate(s, token) == Some(s')
    ensures GuardInv(s')
  {
  }

  lemma {:induction false} RunKeepsGuard(states: seq<State>, actions: seq<Action>, keysTtl: nat, i: nat)
    requires IsRun(states, actions, keysTtl) && i <= |actions|
    ensures GuardInv(states[i])
  {
    if i > 0 {
      RunKeepsGuard(states, actions, keysTtl, i - 1);
      var s, s' := states[i - 1], states[i];
      match actions[i - 1]
      case TryLock(token) => TryLockKeepsGuard(s, token, s');
      case Fetch(token) => FetchKeepsGuard(s, token, s');
      case Decide(token) => DecideKeepsGuard(s, token, s', keysTtl);
      case SaveAndPublish(token) => SaveKeepsGuard(s, token, s', keysTtl);
      case Update(token) => UpdateKeepsGuard(s, token, s');
      case _ => OutsideKeepsGuard(s, actions[i - 1], s', keysTtl);
    }
  }

  /**
   In every run, late saves included: a lock that is held belongs to a task inside, or to one whose
   unlock script is under way, and that script frees it. No task leaves the lock to its time limit.
   */
  lemma LockIsGivenBack(states: seq<State>, actions: seq<Action>, keysTtl: nat, i: nat)
    requires IsRun(states, actions, keysTtl) && i < |states| && !Lease.IsFree(states[i].lock, states[i].now)
    ensures var s, token := states[i], states[i].lock.value.token;
            && (IsWorkingUnder(s, token) || token in s.unlocking)
            && (token in s.unlocking ==>
                  && !IsWorkingUnder(s, token)
                  && Step(s, RunUnlock(token), keysTtl).Some?
                  && Lease.IsFree(Step(s, RunUnlock(token), keysTtl).value.lock, s.now))
  {
    RunKeepsGuard(states, actions, keysTtl, i);
  }
}
