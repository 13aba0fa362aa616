/** No update is missed: what is still outstanding for a worker that lacks the stored key set. */
module KeyProgress {
  import opened Wrappers
  import opened RotatingKeys
  import opened KeyProtocol
  import opened KeyInvariant
  import KeyTheorems

  predicate IsUpToDate(s: State, worker: Worker) {
    worker in s.active && s.active[worker].version == Latest(s)
  }

  /** A notification from another worker waits to be received; it will start a locked fetch. */
  ghost predicate IsNotified(s: State, worker: Worker) {
    worker in s.inbox && exists i :: 0 <= i < |s.inbox[worker]| && s.inbox[worker][i] != worker
  }

  /**
   The task leads to the stored set: it has yet to fetch it, is handing it to the key manager, or is a
   rotation that will replace it because it is no longer usable.
   */
  predicate Leads(s: State, token: Lease.Token, worker: Worker) {
    token in s.jobs && s.jobs[token].worker == worker &&
    match s.jobs[token].task
    case UpdateWaiting => true
    case UpdateLocked => true
    case Install(_, version) => version == Latest(s)
    case RotateWaiting => !s.stored.IsUsable(s.now)
    case RotateLocked => !s.stored.IsUsable(s.now)
    case RotateFetched(_, version) => version == Latest(s) && !s.stored.IsUsable(s.now)
    case RotateDecided(_, version, _) => version == Latest(s) && !s.stored.IsUsable(s.now)
  }

  ghost predicate IsServed(s: State, worker: Worker) {
    || IsUpToDate(s, worker)
    || worker in s.starting
    || IsNotified(s, worker)
    || exists token :: Leads(s, token, worker)
  }

  /** Every subscribed worker has the stored set or something outstanding that leads to it. */
  ghost predicate ProgressInv(s: State) {
    forall w :: w in s.subscribed ==> w in s.inbox && IsServed(s, w)
  }

  /** Saving and publishing serves everyone: the saver installs it, all others are notified. */
  lemma SaveServesAll(s: State, token: Lease.Token, s': State, keysTtl: nat)
    requires ProgressInv(s) && StepSave(s, token, keysTtl) == Some(s')
    ensures ProgressInv(s')
  {
    var saver := s.jobs[token].worker;
    forall w | w in s'.subscribed ensures w in s'.inbox && IsServed(s', w) {
      if w == saver {
        assert Leads(s', token, w);
      } else {
        assert s'.inbox[w][|s.inbox[w]|] == saver;
      }
    }
  }

  /** Receiving one notification: a foreign one becomes a fetch, and the others still wait. */
  lemma ReceiveServes(s: State, s': State, worker: Worker, keysTtl: nat)
    requires IsNotified(s, worker) && Step(s, Receive(worker), keysTtl) == Some(s')
    ensures IsServed(s', worker)
  {
    if s.inbox[worker][0] != worker {
      assert Leads(s', s.nextToken, worker);
    } else {
      var i :| 0 <= i < |s.inbox[worker]| && s.inbox[worker][i] != worker;
      assert s'.inbox[worker][i - 1] == s.inbox[worker][i];
    }
  }

  /** A leading task that takes a step leads on, or has installed the stored set. */
  lemma LeadingTaskServes(s: State, a: Action, s': State, worker: Worker, keysTtl: nat)
    requires keysTtl > 0 && Inv(s, keysTtl) && Step(s, a, keysTtl) == Some(s')
    requires a.TryLock? || a.Fetch? || a.Decide? || a.Update?
    requires Leads(s, a.token, worker)
    ensures IsServed(s', worker)
  {
    assert JobInv(s, a.token, keysTtl);
    if a.Decide? {
      var task := s.jobs[a.token].task;
      RotationResult(task.keySet, s.now, keysTtl, s.nextKey, s.nextKey + 1, 0, 0);
      assert Leads(s', a.token, worker);
    } else if a.Update? {
      assert IsUpToDate(s', worker) || Leads(s', s.nextToken, worker);
    } else {
      assert Leads(s', a.token, worker);
    }
  }

  /** The task is untouched, and so is all that its leading depends on. */
  predicate IsUntouched(s: State, s': State, token: Lease.Token) {
    && token in s.jobs && token in s'.jobs && s'.jobs[token] == s.jobs[token]
    && s'.saves == s.saves && s'.stored == s.stored && s.now <= s'.now
  }

  lemma OutsideStays(s: State, a: Action, s': State, keysTtl: nat, token: Lease.Token)
    requires Step(s, a, keysTtl) == Some(s') && IsOutside(a)
    requires token in s.jobs && token < s.nextToken
    ensures IsUntouched(s, s', token)
  {
  }

  lemma TryLockStays(s: State, other: Lease.Token, s': State, token: Lease.Token)
    requires StepTryLock(s, other) == Some(s') && token in s.jobs && token != other
    ensures IsUntouched(s, s', token)
  {
  }

  lemma FetchStays(s: State, other: Lease.Token, s': State, token: Lease.Token)
    requires StepFetch(s, other) == Some(s') && token in s.jobs && token != other
    ensures IsUntouched(s, s', token)
  {
  }

  lemma DecideStays(s: State, other: Lease.Token, s': State, keysTtl: nat, token: Lease.Token)
    requires StepDecide(s, other, keysTtl) == Some(s') && token in s.jobs && token != other
    ensures IsUntouched(s, s', token)
  {
  }

  lemma UpdateStays(s: State, other: Lease.Token, s': State, token: Lease.Token)
    requires StepUpdate(s, other) == Some(s') && token in s.jobs && token != other && token < s.nextToken
    ensures IsUntouched(s, s', token)
  {
  }

  lemma OtherTaskStays(s: State, a: Action, s': State, keysTtl: nat, token: Lease.Token)
    requires Step(s, a, keysTtl) == Some(s') && !a.SaveAndPublish?
    requires token in s.jobs && token < s.nextToken
    requires a.TryLock? || a.Fetch? || a.Decide? || a.Update? ==> a.token != token
    ensures IsUntouched(s, s', token)
  {
    match a
    case TryLock(other) => TryLockStays(s, other, s', token);
    case Fetch(other) => FetchStays(s, other, s', token);
    case Decide(other) => DecideStays(s, other, s', keysTtl, token);
    case Update(other) => UpdateStays(s, other, s', token);
    case _ => OutsideStays(s, a, s', keysTtl, token);
  }

  /** A leading task that the step does not concern goes on leading. */
  lemma OtherTaskLeads(s: State, a: Action, s': State, keysTtl: nat, token: Lease.Token, worker: Worker)
    requires Inv(s, keysTtl) && Step(s, a, keysTtl) == Some(s') && !a.SaveAndPublish?
    requires Leads(s, token, worker)
    requires a.TryLock? || a.Fetch? || a.Decide? || a.Update? ==> a.token != token
    ensures Leads(s', token, worker)
  {
    OtherTaskStays(s, a, s', keysTtl, token);
  }

  /** What is installed is replaced only by the stored set. */
  lemma UpToDateStays(s: State, a: Action, s': State, keysTtl: nat, worker: Worker)
    requires keysTtl > 0 && Inv(s, keysTtl) && Step(s, a, keysTtl) == Some(s') && !a.SaveAndPublish?
    requires IsUpToDate(s, worker)
    ensures IsUpToDate(s', worker)
  {
    if s'.active != s.active {
      KeyTheorems.OnlyUpdateInstalls(s, a, s', keysTtl);
      assert JobInv(s, a.token, keysTtl);
      var task := s.jobs[a.token].task;
      if task.version < Latest(s) {
        KeyTheorems.SupersededIsUnusable(s, task.version, keysTtl);
      }
    }
  }

  lemma StartingServes(s: State, a: Action, s': State, keysTtl: nat, worker: Worker)
    requires Step(s, a, keysTtl) == Some(s') && !a.SaveAndPublish? && worker in s.starting
    ensures IsServed(s', worker)
  {
    if a == FirstFetch(worker) {
      assert Leads(s', s.nextToken, worker);
    } else {
      assert worker in s'.starting;
    }
  }

  lemma NotifiedServes(s: State, a: Action, s': State, keysTtl: nat, worker: Worker)
    requires Step(s, a, keysTtl) == Some(s') && !a.SaveAndPublish?
    requires worker in s.subscribed && IsNotified(s, worker)
    ensures IsServed(s', worker)
  {
    if a == Receive(worker) {
      ReceiveServes(s, s', worker, keysTtl);
    } else {
      assert s'.inbox[worker] == s.inbox[worker];
    }
  }

  lemma StepServes(s: State, a: Action, s': State, keysTtl: nat, worker: Worker)
    requires keysTtl > 0 && Inv(s, keysTtl) && Step(s, a, keysTtl) == Some(s') && !a.SaveAndPublish?
    requires worker in s.subscribed && worker in s.inbox && IsServed(s, worker)
    ensures IsServed(s', worker)
  {
    if IsUpToDate(s, worker) {
      UpToDateStays(s, a, s', keysTtl, worker);
    } else if worker in s.starting {
      StartingServes(s, a, s', keysTtl, worker);
    } else if IsNotified(s, worker) {
      NotifiedServes(s, a, s', keysTtl, worker);
    } else {
      var token :| Leads(s, token, worker);
      if (a.TryLock? || a.Fetch? || a.Decide? || a.Update?) && a.token == token {
        LeadingTaskServes(s, a, s', worker, keysTtl);
      } else {
        OtherTaskLeads(s, a, s', keysTtl, token, worker);
      }
    }
  }

  lemma StepKeepsProgress(s: State, a: Action, s': State, keysTtl: nat)
    requires keysTtl > 0 && Inv(s, keysTtl) && ProgressInv(s) && Step(s, a, keysTtl) == Some(s')
    ensures ProgressInv(s')
  {
    if a.SaveAndPublish? {
      SaveServesAll(s, a.token, s', keysTtl);
    } else {
      forall w | w in s'.subscribed ensures w in s'.inbox && IsServed(s', w) {
        if w in s.subscribed {
          StepServes(s, a, s', keysTtl, w);
          InboxStays(s, a, s', keysTtl, w);
        } else {
          NewSubscriberStarts(s, a, s', keysTtl, w);
        }
      }
    }
  }

  lemma InboxStays(s: State, a: Action, s': State, keysTtl: nat, worker: Worker)
    requires Step(s, a, keysTtl) == Some(s') && worker in s.inbox
    ensures worker in s'.inbox
  {
  }

  lemma NewSubscriberStarts(s: State, a: Action, s': State, keysTtl: nat, worker: Worker)
    requires Step(s, a, keysTtl) == Some(s') && worker !in s.subscribed && worker in s'.subscribed
    ensures worker in s'.inbox && worker in s'.starting
  {
  }

  /**
   In every run, a subscribed worker whose installed set is not the stored one has a first fetch, a
   foreign notification, a locked fetch, an update or a due rotation outstanding.
   */
  lemma {:induction false} NoMissedUpdate(states: seq<State>, actions: seq<Action>, keysTtl: nat, i: nat)
    requires IsTimelyRun(states, actions, keysTtl) && i <= |actions|
    ensures ProgressInv(states[i])
  {
    if i > 0 {
      NoMissedUpdate(states, actions, keysTtl, i - 1);
      RunKeepsInv(states, actions, keysTtl, i - 1);
      StepKeepsProgress(states[i - 1], actions[i - 1], states[i], keysTtl);
    }
  }

  // ---- Catching up ----

  /** The actions of `path` can be taken one after the other, and leave the worker up to date. */
  ghost predicate CatchesUp(s: State, path: seq<Action>, worker: Worker, keysTtl: nat)
    decreases |path|
  {
    && !s.late
    && if path == [] then IsUpToDate(s, worker) && s.active[worker].keySet == s.stored
       else Step(s, path[0], keysTtl).Some? && CatchesUp(Step(s, path[0], keysTtl).value, path[1..], worker, keysTtl)
  }

  predicate NoTimer(path: seq<Action>) {
    forall a :: a in path ==> !a.TimerFires?
  }

  lemma First(s: State, a: Action, path: seq<Action>, worker: Worker, keysTtl: nat)
    requires !s.late && Step(s, a, keysTtl).Some? && CatchesUp(Step(s, a, keysTtl).value, path, worker, keysTtl)
    ensures CatchesUp(s, [a] + path, worker, keysTtl)
  {
    assert ([a] + path)[1..] == path;
  }

  /** A fetched or saved copy of the stored set is installed if usable, or else rotated first. */
  lemma InstallCatchesUp(s: State, token: Lease.Token, worker: Worker, keysTtl: nat) returns (path: seq<Action>)
    requires keysTtl > 0 && Inv(s, keysTtl) && !s.late
    requires token in s.jobs && s.jobs[token] == Job(worker, Install(s.stored, Latest(s)))
    ensures CatchesUp(s, path, worker, keysTtl) && NoTimer(path)
    decreases !s.stored.IsUsable(s.now), 2
  {
    var s' := Step(s, Update(token), keysTtl).value;
    UpdateKeepsInv(s, token, s', keysTtl);
    path := [];
    if !s.stored.IsUsable(s.now) {
      path := RotationCatchesUp(s', s.nextToken, worker, keysTtl);
    }
    First(s, Update(token), path, worker, keysTtl);
    path := [Update(token)] + path;
  }

  /** Waiting long enough for the lock to be free. */
  function UntilFree(s: State): nat {
    if s.lock.Some? && s.lock.value.expires > s.now then s.lock.value.expires - s.now else 0
  }

  /** A rotation holding an unexpired lock, on a set that is due. */
  lemma LockedRotationCatchesUp(s: State, token: Lease.Token, worker: Worker, keysTtl: nat) returns (path: seq<Action>)
    requires keysTtl > 0 && Inv(s, keysTtl) && !s.late && !s.stored.IsUsable(s.now)
    requires OwnsLock(s, token) && !Lease.IsFree(s.lock, s.now)
    requires token in s.jobs && s.jobs[token] == Job(worker, RotateLocked)
    ensures CatchesUp(s, path, worker, keysTtl) && NoTimer(path)
    decreases true, 0
  {
    var s3 := Step(s, Fetch(token), keysTtl).value;
    FetchKeepsInv(s, token, s3, keysTtl);
    RotationResult(s3.stored, s3.now, keysTtl, s3.nextKey, s3.nextKey + 1, 0, 0);
    var s4 := Step(s3, Decide(token), keysTtl).value;
    DecideKeepsInv(s3, token, s4, keysTtl);
    path := DecidedRotationCatchesUp(s4, token, worker, keysTtl);
    First(s3, Decide(token), path, worker, keysTtl);
    path := [Decide(token)] + path;
    First(s, Fetch(token), path, worker, keysTtl);
    path := [Fetch(token)] + path;
  }

  lemma DecidedRotationCatchesUp(s: State, token: Lease.Token, worker: Worker, keysTtl: nat) returns (path: seq<Action>)
    requires keysTtl > 0 && Inv(s, keysTtl) && !s.late
    requires OwnsLock(s, token) && !Lease.IsFree(s.lock, s.now)
    requires token in s.jobs && s.jobs[token].worker == worker && s.jobs[token].task.RotateDecided?
    requires s.jobs[token].task.rotation.at == s.now
    ensures CatchesUp(s, path, worker, keysTtl) && NoTimer(path)
    decreases false, 3
  {
    assert JobInv(s, token, keysTtl);
    var rotation := s.jobs[token].task.rotation;
    RotationResult(s.stored, s.now, keysTtl, rotation.fresh0, rotation.fresh1, 0, 0);
    var s' := Step(s, SaveAndPublish(token), keysTtl).value;
    SaveKeepsInv(s, token, s', keysTtl);
    path := InstallCatchesUp(s', token, worker, keysTtl);
    First(s, SaveAndPublish(token), path, worker, keysTtl);
    path := [SaveAndPublish(token)] + path;
  }

  /** A rotation that takes the lock, on a set that is due, runs to the installation of its result. */
  lemma RotationCatchesUp(s: State, token: Lease.Token, worker: Worker, keysTtl: nat) returns (path: seq<Action>)
    requires keysTtl > 0 && Inv(s, keysTtl) && !s.late && !s.stored.IsUsable(s.now)
    requires token in s.jobs && s.jobs[token] == Job(worker, RotateWaiting)
    ensures CatchesUp(s, path, worker, keysTtl) && NoTimer(path)
    decreases true, 1
  {
    var s1 := Step(s, Tick(UntilFree(s)), keysTtl).value;
    OutsideStepKeepsInv(s, Tick(UntilFree(s)), s1, keysTtl);
    var s2 := Step(s1, TryLock(token), keysTtl).value;
    TryLockKeepsInv(s1, token, s2, keysTtl);
    path := LockedRotationCatchesUp(s2, token, worker, keysTtl);
    First(s1, TryLock(token), path, worker, keysTtl);
    path := [TryLock(token)] + path;
    First(s, Tick(UntilFree(s)), path, worker, keysTtl);
    path := [Tick(UntilFree(s))] + path;
  }

  /** A locked fetch ends with the stored set installed. */
  lemma FetchCatchesUp(s: State, token: Lease.Token, worker: Worker, keysTtl: nat) returns (path: seq<Action>)
    requires keysTtl > 0 && Inv(s, keysTtl) && !s.late
    requires token in s.jobs && s.jobs[token] == Job(worker, UpdateLocked)
    ensures CatchesUp(s, path, worker, keysTtl) && NoTimer(path)
  {
    var s' := Step(s, Fetch(token), keysTtl).value;
    FetchKeepsInv(s, token, s', keysTtl);
    path := InstallCatchesUp(s', token, worker, keysTtl);
    First(s, Fetch(token), path, worker, keysTtl);
    path := [Fetch(token)] + path;
  }

  lemma WaitingFetchCatchesUp(s: State, token: Lease.Token, worker: Worker, keysTtl: nat) returns (path: seq<Action>)
    requires keysTtl > 0 && Inv(s, keysTtl) && !s.late
    requires token in s.jobs && s.jobs[token] == Job(worker, UpdateWaiting)
    ensures CatchesUp(s, path, worker, keysTtl) && NoTimer(path)
  {
    var s1 := Step(s, Tick(UntilFree(s)), keysTtl).value;
    OutsideStepKeepsInv(s, Tick(UntilFree(s)), s1, keysTtl);
    var s2 := Step(s1, TryLock(token), keysTtl).value;
    TryLockKeepsInv(s1, token, s2, keysTtl);
    path := FetchCatchesUp(s2, token, worker, keysTtl);
    First(s1, TryLock(token), path, worker, keysTtl);
    path := [TryLock(token)] + path;
    First(s, Tick(UntilFree(s)), path, worker, keysTtl);
    path := [Tick(UntilFree(s))] + path;
  }

  /** Receiving notifications until a foreign one starts a fetch. */
  lemma NotifiedCatchesUp(s: State, worker: Worker, keysTtl: nat) returns (path: seq<Action>)
    requires keysTtl > 0 && Inv(s, keysTtl) && !s.late
    requires worker in s.subscribed && IsNotified(s, worker)
    ensures CatchesUp(s, path, worker, keysTtl) && NoTimer(path)
    decreases s.inbox[worker]
  {
    var s' := Step(s, Receive(worker), keysTtl).value;
    OutsideStepKeepsInv(s, Receive(worker), s', keysTtl);
    if s.inbox[worker][0] != worker {
      path := WaitingFetchCatchesUp(s', s.nextToken, worker, keysTtl);
    } else {
      var i :| 0 <= i < |s.inbox[worker]| && s.inbox[worker][i] != worker;
      assert s'.inbox[worker][i - 1] == s.inbox[worker][i];
      path := NotifiedCatchesUp(s', worker, keysTtl);
    }
    First(s, Receive(worker), path, worker, keysTtl);
    path := [Receive(worker)] + path;
  }

  /**
   From every state of every timely run, a subscribed worker can reach the stored set: what is
   outstanding for it is enough, except that a due rotation may have to be started by the timer
   because the one outstanding has outlived its lease.
   */
  lemma EveryWorkerCanCatchUp(states: seq<State>, actions: seq<Action>, keysTtl: nat, i: nat, worker: Worker)
    returns (path: seq<Action>)
    requires IsTimelyRun(states, actions, keysTtl) && i <= |actions| && worker in states[i].subscribed
    ensures CatchesUp(states[i], path, worker, keysTtl)
    ensures states[i].stored.IsUsable(states[i].now) ==> TimerFires(worker) !in path
  {
    var s := states[i];
    LateStays(states, actions, keysTtl, i);
    RunKeepsInv(states, actions, keysTtl, i);
    NoMissedUpdate(states, actions, keysTtl, i);
    if IsUpToDate(s, worker) {
      path := [];
    } else if worker in s.starting {
      var s' := Step(s, FirstFetch(worker), keysTtl).value;
      OutsideStepKeepsInv(s, FirstFetch(worker), s', keysTtl);
      path := WaitingFetchCatchesUp(s', s.nextToken, worker, keysTtl);
      First(s, FirstFetch(worker), path, worker, keysTtl);
      path := [FirstFetch(worker)] + path;
    } else if IsNotified(s, worker) {
      path := NotifiedCatchesUp(s, worker, keysTtl);
    } else if !s.stored.IsUsable(s.now) {
      var s' := Step(s, TimerFires(worker), keysTtl).value;
      OutsideStepKeepsInv(s, TimerFires(worker), s', keysTtl);
      path := RotationCatchesUp(s', s.nextToken, worker, keysTtl);
      First(s, TimerFires(worker), path, worker, keysTtl);
      path := [TimerFires(worker)] + path;
    } else {
      var token :| Leads(s, token, worker);
      assert JobInv(s, token, keysTtl);
      match s.jobs[token].task
      case UpdateWaiting => path := WaitingFetchCatchesUp(s, token, worker, keysTtl);
      case UpdateLocked => path := FetchCatchesUp(s, token, worker, keysTtl);
      case Install(_, _) => path := InstallCatchesUp(s, token, worker, keysTtl);
    }
  }
}
