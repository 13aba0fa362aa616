/**
 Key rotation across workers that share one Redis server: locked fetch, rotate, save and publish,
 unlock, update, and the notifications that make other workers fetch.

 The state is that of one signing algorithm; the key set, the lock and the channel of another
 algorithm have other names and never meet these. Each worker's agents run any number of tasks, and
 one `Step` is one atomic effect: a Redis command, a handler call, or the passing of time. The
 rotation timer may fire at any moment.
 */
module KeyProtocol {
  import opened Wrappers
  import opened RotatingKeys
  import opened Lease

  type Worker = nat

  /**
   The progress of one asynchronous task. A task's number doubles as the unique token of the lock
   request it makes. `version` says which save the key set in hand was read from or written by.
   */
  datatype Task =
    | UpdateWaiting                            // UpdateKeysLocked: waiting for the lock
    | UpdateLocked                             // ... lock held, about to fetch
    | Install(keySet: KeySet, version: nat)    // UpdateKeys: sent to the key manager
    | RotateWaiting                            // RotateKeysLocked: waiting for the lock
    | RotateLocked                             // ... lock held, about to fetch
    | RotateFetched(keySet: KeySet, version: nat)             // ... RotateKeys sent to the key manager
    | RotateDecided(keySet: KeySet, version: nat, rotation: Rotation)  // ... about to save

  /** A rotation the key manager decided on: when, and with which generated keys. */
  datatype Rotation = Rotation(at: int, fresh0: Key, fresh1: Key)

  datatype Job = Job(worker: Worker, task: Task)

  /** One entry of the history of saved sets; `rotation` is how it came from the one before it. */
  datatype Save = Save(keySet: KeySet, rotation: Rotation, savedAt: int)

  datatype Copy = Copy(keySet: KeySet, version: nat)

  datatype State = State(
    now: int,
    stored: KeySet,                     // the Redis key `keys:<alg>`, empty if absent
    lock: Option<Lock>,                 // the Redis key `lock:keys:<alg>`
    unlocking: set<Token>,              // unlock scripts spawned but not run
    jobs: map<Token, Job>,
    nextToken: Token,
    nextKey: Key,
    subscribed: set<Worker>,            // workers whose SUBSCRIBE is confirmed
    starting: set<Worker>,              // ... and that have not sent their first UpdateKeysLocked
    inbox: map<Worker, seq<Worker>>,    // notifications not yet received: the ids of their senders
    active: map<Worker, Copy>,          // the set installed in each key manager
    saves: seq<Save>,                   // history
    late: bool)                         // some save was made after its lease had ended

  datatype Action =
    | Tick(delta: nat)
    | Subscribe(worker: Worker)
    | FirstFetch(worker: Worker)
    | Receive(worker: Worker)           // the subscription task takes a notification
    | TimerFires(worker: Worker)
    | TryLock(token: Token)
    | RunUnlock(token: Token)
    | Fetch(token: Token)
    | Decide(token: Token)              // the RotateKeys handler
    | SaveAndPublish(token: Token)      // the MULTI of SET and PUBLISH, then the guard is dropped
    | Update(token: Token)              // the UpdateKeys handler

  /** The version of the stored set; no run has an empty history. */
  function Latest(s: State): nat {
    if s.saves == [] then 0 else |s.saves| - 1
  }

  predicate OwnsLock(s: State, token: Token) {
    s.lock.Some? && s.lock.value.token == token
  }

  function Spawn(s: State, worker: Worker, task: Task): State {
    s.(jobs := s.jobs[s.nextToken := Job(worker, task)], nextToken := s.nextToken + 1)
  }

  function Become(s: State, token: Token, task: Task): State
    requires token in s.jobs
  {
    s.(jobs := s.jobs[token := s.jobs[token].(task := task)])
  }

  function Finish(s: State, token: Token): State {
    s.(jobs := s.jobs - {token})
  }

  /** Sending a message from inside a finished task: a new task, with a new lock token. */
  function Restart(s: State, token: Token, task: Task): State
    requires token in s.jobs
  {
    Spawn(Finish(s, token), s.jobs[token].worker, task)
  }

  function DropGuard(s: State, token: Token): State {
    s.(unlocking := s.unlocking + {token})
  }

  /** PUBLISH: every confirmed subscriber gets the sender's id, the sender included. */
  function Publish(s: State, sender: Worker): State {
    s.(inbox := map w | w in s.inbox :: if w in s.subscribed then s.inbox[w] + [sender] else s.inbox[w])
  }

  function StepTryLock(s: State, token: Token): Option<State> {
    if token !in s.jobs || !(s.jobs[token].task.UpdateWaiting? || s.jobs[token].task.RotateWaiting?) then None else
    var (lock, ok) := SetNx(s.lock, token, s.now);
    if !ok then Some(s) else
    var locked := s.(lock := lock);
    Some(Become(locked, token, if s.jobs[token].task.UpdateWaiting? then UpdateLocked else RotateLocked))
  }

  function StepFetch(s: State, token: Token): Option<State> {
    if token !in s.jobs then None else
    match s.jobs[token].task
    case UpdateLocked => Some(Become(DropGuard(s, token), token, Install(s.stored, Latest(s))))
    case RotateLocked => Some(Become(s, token, RotateFetched(s.stored, Latest(s))))
    case _ => None
  }

  function StepDecide(s: State, token: Token, keysTtl: nat): Option<State> {
    if token !in s.jobs || !s.jobs[token].task.RotateFetched? then None else
    var RotateFetched(keySet, version) := s.jobs[token].task;
    var rotation := Rotation(s.now, s.nextKey, s.nextKey + 1);
    match Apply(keySet, rotation, keysTtl)
    case RotateAssertFailed => None
    case NoChange => Some(Finish(DropGuard(s, token), token))
    case Changed(_) => Some(Become(s.(nextKey := s.nextKey + 2), token, RotateDecided(keySet, version, rotation)))
  }

  function StepSave(s: State, token: Token, keysTtl: nat): Option<State> {
    if token !in s.jobs || !s.jobs[token].task.RotateDecided? then None else
    var RotateDecided(keySet, version, rotation) := s.jobs[token].task;
    var reply := Apply(keySet, rotation, keysTtl);
    if !reply.Changed? then None else
    var saved := s.(stored := reply.keySet,
                    saves := s.saves + [Save(reply.keySet, rotation, s.now)],
                    late := s.late || !OwnsLock(s, token) || IsFree(s.lock, s.now));
    var published := Publish(saved, s.jobs[token].worker);
    Some(Become(DropGuard(published, token), token, Install(reply.keySet, |s.saves|)))
  }

  function StepUpdate(s: State, token: Token): Option<State> {
    if token !in s.jobs || !s.jobs[token].task.Install? then None else
    var Job(worker, Install(keySet, version)) := s.jobs[token];
    if keySet.IsUsable(s.now)
    then Some(Finish(s.(active := s.active[worker := Copy(keySet, version)]), token))
    else Some(Restart(s, token, RotateWaiting))
  }

  function Apply(keySet: KeySet, rotation: Rotation, keysTtl: nat): RotateReply {
    Rotate(keySet, rotation.at, keysTtl, rotation.fresh0, rotation.fresh1)
  }

  function Step(s: State, a: Action, keysTtl: nat): Option<State> {
    match a
    case Tick(delta) => Some(s.(now := s.now + delta))
    case Subscribe(w) =>
      if w in s.subscribed then None else
      Some(s.(subscribed := s.subscribed + {w}, starting := s.starting + {w}, inbox := s.inbox[w := []]))
    case FirstFetch(w) =>
      if w !in s.starting then None else
      Some(Spawn(s.(starting := s.starting - {w}), w, UpdateWaiting))
    case Receive(w) =>
      if w !in s.subscribed || w !in s.inbox || s.inbox[w] == [] then None else
      var rest := s.(inbox := s.inbox[w := s.inbox[w][1..]]);
      Some(if s.inbox[w][0] == w then rest else Spawn(rest, w, UpdateWaiting))
    case TimerFires(w) => Some(Spawn(s, w, RotateWaiting))
    case TryLock(token) => StepTryLock(s, token)
    case RunUnlock(token) =>
      if token !in s.unlocking then None else
      Some(s.(lock := UnlockScript(s.lock, token, s.now).0, unlocking := s.unlocking - {token}))
    case Fetch(token) => StepFetch(s, token)
    case Decide(token) => StepDecide(s, token, keysTtl)
    case SaveAndPublish(token) => StepSave(s, token, keysTtl)
    case Update(token) => StepUpdate(s, token)
  }

  /** The store starts empty, or with a current key that was just imported. */
  predicate IsInit(s: State) {
    && (|| s.stored == EmptyKeySet(s.stored.signingAlg)
        || (s.stored.current.Some? && s.stored.current.value.IsAlive(s.now)
            && s.stored.current.value.value < s.nextKey
            && s.stored.next.None? && s.stored.previous.None?))
    && s.lock == None && s.unlocking == {} && s.jobs == map[]
    && s.subscribed == {} && s.starting == {} && s.inbox == map[] && s.active == map[]
    && |s.saves| == 1 && s.saves[0].keySet == s.stored && s.saves[0].savedAt <= s.now
    && !s.late
  }

  /** A run of the system. All interleavings of all actions are runs. */
  predicate IsRun(states: seq<State>, actions: seq<Action>, keysTtl: nat) {
    && |states| == |actions| + 1
    && IsInit(states[0])
    && forall i {:trigger actions[i]} :: 0 <= i < |actions| ==>
         Step(states[i], actions[i], keysTtl) == Some(states[i + 1])
  }
}
