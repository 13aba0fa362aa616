/**
 The URL cache of the memory store under concurrent fetch tasks: each task takes the slot that the map
 holds for its URL, waits for the slot's lock, and under it serves the data or fetches. Collections
 and requests may come in between at any point.
 */
module SingleFlight {
  import opened Wrappers
  import opened MemoryStore

  type Url(==, !new)
  type SlotId = nat
  type TaskId = nat

  /** What a slot holds: data that expires, when it was fetched, and for how long the response said. */
  datatype Data = Data(entry: Entry<string>, fetchedAt: int, maxAge: nat)

  datatype Phase =
    | Queued      // waits for the slot's lock
    | Fetching    // holds the lock, the request is under way

  /** A task keeps a reference to its slot until it ends. */
  datatype Task = Task(url: Url, slot: SlotId, phase: Phase)

  datatype State = State(
    now: int,
    cache: map<Url, SlotId>,
    slots: map<SlotId, Option<Data>>,
    tasks: map<TaskId, Task>,
    nextSlot: SlotId,
    nextTask: TaskId,
    served: seq<Served>)          // history: every reply from the cache

  /** A reply without a fetch: which data, and when. */
  datatype Served = Served(url: Url, data: Data, at: int)

  datatype Action =
    | Tick(delta: nat)
    | Request(url: Url)
    | Lock(task: TaskId)
    | FetchDone(task: TaskId, outcome: Result<FetchResult, string>)
    | CollectGarbage

  /** The lock of a slot is held by the task that fetches into it. */
  ghost predicate IsLocked(s: State, slot: SlotId) {
    exists t :: t in s.tasks && s.tasks[t].slot == slot && s.tasks[t].phase == Fetching
  }

  /** `Arc::strong_count(slot) > 1`: somebody besides the map holds a reference. */
  ghost predicate IsShared(s: State, slot: SlotId) {
    exists t :: t in s.tasks && s.tasks[t].slot == slot
  }

  function ToSlot(data: Option<Data>): CacheSlot {
    if data.Some? then Some(data.value.entry) else None
  }

  /** `cache.entry(url).or_default()`: the slot of the map, or a new empty one put into it. */
  function StepRequest(s: State, url: Url): State {
    if url in s.cache then
      s.(tasks := s.tasks[s.nextTask := Task(url, s.cache[url], Queued)], nextTask := s.nextTask + 1)
    else
      s.(cache := s.cache[url := s.nextSlot], slots := s.slots[s.nextSlot := None], nextSlot := s.nextSlot + 1,
         tasks := s.tasks[s.nextTask := Task(url, s.nextSlot, Queued)], nextTask := s.nextTask + 1)
  }

  /** The lock is taken: serve live data and end, or start fetching. */
  ghost function StepLock(s: State, task: TaskId): Option<State> {
    if task !in s.tasks || s.tasks[task].phase != Queued || s.tasks[task].slot !in s.slots
       || IsLocked(s, s.tasks[task].slot) then None else
    var Task(url, slot, _) := s.tasks[task];
    if Hit(ToSlot(s.slots[slot]), s.now).Some?
    then Some(s.(tasks := s.tasks - {task}, served := s.served + [Served(url, s.slots[slot].value, s.now)]))
    else Some(s.(tasks := s.tasks[task := Task(url, slot, Fetching)]))
  }

  /** The response arrives: fill the slot, or leave it alone on an error; the lock is released. */
  function StepFetchDone(s: State, task: TaskId, outcome: Result<FetchResult, string>, expireCache: nat)
    : Option<State>
  {
    if task !in s.tasks || s.tasks[task].phase != Fetching then None else
    var Task(url, slot, _) := s.tasks[task];
    var ended := s.(tasks := s.tasks - {task});
    if outcome.Err? then Some(ended) else
    var data := Data(Filled(outcome.value, expireCache, s.now), s.now, outcome.value.maxAge);
    Some(ended.(slots := s.slots[slot := Some(data)]))
  }

  /** A slot stays if its lock is held, if a task has it, or if its data is live. */
  ghost predicate IsRetained(s: State, slot: SlotId) {
    || IsLocked(s, slot)
    || IsShared(s, slot)
    || (slot in s.slots && Hit(ToSlot(s.slots[slot]), s.now).Some?)
  }

  ghost function StepGc(s: State): State {
    s.(cache := map u | u in s.cache && IsRetained(s, s.cache[u]) :: s.cache[u])
  }

  ghost function Step(s: State, a: Action, expireCache: nat): Option<State> {
    match a
    case Tick(delta) => Some(s.(now := s.now + delta))
    case Request(url) => Some(StepRequest(s, url))
    case Lock(task) => StepLock(s, task)
    case FetchDone(task, outcome) => StepFetchDone(s, task, outcome, expireCache)
    case CollectGarbage => Some(StepGc(s))
  }

  predicate IsInit(s: State) {
    s.cache == map[] && s.slots == map[] && s.tasks == map[] && s.served == []
  }

  ghost predicate IsRun(states: seq<State>, actions: seq<Action>, expireCache: nat) {
    && |states| == |actions| + 1
    && IsInit(states[0])
    && forall i {:trigger actions[i]} :: 0 <= i < |actions| ==>
         Step(states[i], actions[i], expireCache) == Some(states[i + 1])
  }

  // ---- The invariant ----

  /** One of the two times for which a response is kept still runs. */
  predicate IsKept(data: Data, now: int, expireCache: nat) {
    now < data.fetchedAt + expireCache || now < data.fetchedAt + data.maxAge
  }

  /** The data is one response, kept for the longer of the two times and no longer. */
  predicate IsFresh(data: Data, now: int, expireCache: nat) {
    && data.fetchedAt <= now
    && data.entry.expires >= data.fetchedAt + expireCache && data.entry.expires >= data.fetchedAt + data.maxAge
    && (data.entry.expires == data.fetchedAt + expireCache || data.entry.expires == data.fetchedAt + data.maxAge)
  }

  predicate IsFetching(s: State, t: TaskId) {
    t in s.tasks && s.tasks[t].phase == Fetching
  }

  /** Slots are neither shared between URLs nor lost. */
  ghost predicate CacheInv(s: State) {
    && (forall u :: u in s.cache ==> s.cache[u] < s.nextSlot && s.cache[u] in s.slots)
    && (forall u, v :: u in s.cache && v in s.cache && s.cache[u] == s.cache[v] ==> u == v)
  }

  /** A task uses the slot that the map holds for its URL. */
  predicate TaskInv(s: State, t: TaskId) {
    t in s.tasks ==> t < s.nextTask && s.tasks[t].url in s.cache && s.cache[s.tasks[t].url] == s.tasks[t].slot
  }

  ghost predicate LocksInv(s: State) {
    forall t, u :: IsFetching(s, t) && IsFetching(s, u) && s.tasks[t].slot == s.tasks[u].slot ==> t == u
  }

  ghost predicate MapInv(s: State) {
    CacheInv(s) && (forall t :: TaskInv(s, t)) && LocksInv(s)
  }

  ghost predicate DataInv(s: State, expireCache: nat) {
    && (forall k :: k in s.slots && s.slots[k].Some? ==> IsFresh(s.slots[k].value, s.now, expireCache))
    && (forall i :: 0 <= i < |s.served| ==>
          && IsFresh(s.served[i].data, s.served[i].at, expireCache)
          && IsKept(s.served[i].data, s.served[i].at, expireCache))
  }

  ghost predicate Inv(s: State, expireCache: nat) {
    MapInv(s) && DataInv(s, expireCache)
  }

  /** No task starts to fetch. */
  lemma LocksKept(s: State, s': State)
    requires LocksInv(s)
    requires forall t :: IsFetching(s', t) ==> IsFetching(s, t) && s'.tasks[t].slot == s.tasks[t].slot
    ensures LocksInv(s')
  {
  }

  lemma RequestKeepsTasks(s: State, url: Url, s': State)
    requires MapInv(s) && s' == StepRequest(s, url)
    ensures forall t :: TaskInv(s', t)
    ensures forall t :: IsFetching(s', t) ==> IsFetching(s, t) && s'.tasks[t].slot == s.tasks[t].slot
  {
    forall t ensures TaskInv(s', t) {
      assert TaskInv(s, t);
    }
    forall t | IsFetching(s', t) ensures IsFetching(s, t) && s'.tasks[t].slot == s.tasks[t].slot {
      assert TaskInv(s, t);
    }
  }

  lemma RequestKeepsCache(s: State, url: Url)
    requires CacheInv(s)
    ensures CacheInv(StepRequest(s, url))
  {
  }

  lemma RequestKeepsMap(s: State, url: Url)
    requires MapInv(s)
    ensures MapInv(StepRequest(s, url))
  {
    RequestKeepsCache(s, url);
    RequestKeepsTasks(s, url, StepRequest(s, url));
    LocksKept(s, StepRequest(s, url));
  }

  /** The lock that is taken was free. */
  lemma LockKeepsLocks(s: State, task: TaskId, s': State)
    requires LocksInv(s) && StepLock(s, task) == Some(s')
    ensures LocksInv(s')
  {
    var slot := s.tasks[task].slot;
    assert !IsLocked(s, slot);
    assert forall t :: IsFetching(s, t) ==> s.tasks[t].slot != slot;
    assert forall t :: IsFetching(s', t) ==> IsFetching(s, t) || t == task;
  }

  lemma LockKeepsMap(s: State, task: TaskId, s': State)
    requires MapInv(s) && StepLock(s, task) == Some(s')
    ensures MapInv(s')
  {
    LockKeepsLocks(s, task, s');
    forall t ensures TaskInv(s', t) {
      assert TaskInv(s, t);
    }
  }

  /** A slot that a task holds is retained. */
  lemma GcKeepsMap(s: State)
    requires MapInv(s)
    ensures MapInv(StepGc(s))
  {
    var s' := StepGc(s);
    forall t ensures TaskInv(s', t) {
      assert TaskInv(s, t);
      assert t in s.tasks ==> IsShared(s, s.tasks[t].slot);
    }
    LocksKept(s, s');
  }

  lemma FetchDoneKeepsMap(s: State, task: TaskId, outcome: Result<FetchResult, string>, s': State, expireCache: nat)
    requires MapInv(s) && StepFetchDone(s, task, outcome, expireCache) == Some(s')
    ensures MapInv(s')
  {
    forall t ensures TaskInv(s', t) {
      assert TaskInv(s, t);
    }
    LocksKept(s, s');
  }

  lemma TickKeepsMap(s: State, delta: nat)
    requires MapInv(s)
    ensures MapInv(s.(now := s.now + delta))
  {
    var s' := s.(now := s.now + delta);
    forall t ensures TaskInv(s', t) {
      assert TaskInv(s, t);
    }
    LocksKept(s, s');
  }

  lemma StepKeepsMap(s: State, a: Action, s': State, expireCache: nat)
    requires MapInv(s) && Step(s, a, expireCache) == Some(s')
    ensures MapInv(s')
  {
    match a
    case Tick(delta) => TickKeepsMap(s, delta);
    case Request(url) => RequestKeepsMap(s, url);
    case Lock(task) => LockKeepsMap(s, task, s');
    case FetchDone(task, outcome) => FetchDoneKeepsMap(s, task, outcome, s', expireCache);
    case CollectGarbage => GcKeepsMap(s);
  }

  lemma StepKeepsData(s: State, a: Action, s': State, expireCache: nat)
    requires DataInv(s, expireCache) && Step(s, a, expireCache) == Some(s')
    ensures DataInv(s', expireCache)
  {
  }

  lemma {:induction false} RunKeepsInv(states: seq<State>, actions: seq<Action>, expireCache: nat, i: nat)
    requires IsRun(states, actions, expireCache) && i <= |actions|
    ensures Inv(states[i], expireCache)
  {
    if i > 0 {
      RunKeepsInv(states, actions, expireCache, i - 1);
      StepKeepsMap(states[i - 1], actions[i - 1], states[i], expireCache);
      StepKeepsData(states[i - 1], actions[i - 1], states[i], expireCache);
    }
  }

  // ---- What it gives ----

  /** All tasks of a URL share the slot that the map holds for it, whenever they came. */
  lemma TasksShareTheSlot(states: seq<State>, actions: seq<Action>, expireCache: nat, i: nat, t: TaskId)
    requires IsRun(states, actions, expireCache) && i < |states| && t in states[i].tasks
    ensures var task := states[i].tasks[t];
            task.url in states[i].cache && states[i].cache[task.url] == task.slot
  {
    RunKeepsInv(states, actions, expireCache, i);
    assert TaskInv(states[i], t);
  }

  /** At most one fetch per URL is under way at any time. */
  lemma OneFetchPerUrl(states: seq<State>, actions: seq<Action>, expireCache: nat, i: nat, t: TaskId, u: TaskId)
    requires IsRun(states, actions, expireCache) && i < |states|
    requires t in states[i].tasks && u in states[i].tasks && states[i].tasks[t].url == states[i].tasks[u].url
    requires states[i].tasks[t].phase == Fetching && states[i].tasks[u].phase == Fetching
    ensures t == u
  {
    RunKeepsInv(states, actions, expireCache, i);
    assert TaskInv(states[i], t) && TaskInv(states[i], u);
    assert IsFetching(states[i], t) && IsFetching(states[i], u);
  }

  /** Every reply from the cache is younger than the longer of `expire_cache` and its `max-age`. */
  lemma HitsAreFresh(states: seq<State>, actions: seq<Action>, expireCache: nat, i: nat, k: nat)
    requires IsRun(states, actions, expireCache) && i < |states| && k < |states[i].served|
    ensures var r := states[i].served[k];
            && r.data.fetchedAt <= r.at
            && (r.at < r.data.fetchedAt + expireCache || r.at < r.data.fetchedAt + r.data.maxAge)
  {
    RunKeepsInv(states, actions, expireCache, i);
  }

  /**
   No second fetch for data that is there: a task starts a fetch only when the slot of its URL holds
   nothing live, even if a fetch ended while it waited.
   */
  lemma FetchOnlyWhenStale(states: seq<State>, actions: seq<Action>, expireCache: nat, i: nat, t: TaskId)
    requires IsRun(states, actions, expireCache) && i < |actions| && t in states[i].tasks && t in states[i + 1].tasks
    requires states[i].tasks[t].phase == Queued && states[i + 1].tasks[t].phase == Fetching
    ensures var s, url := states[i], states[i].tasks[t].url;
            url in s.cache && s.cache[url] in s.slots && Hit(ToSlot(s.slots[s.cache[url]]), s.now).None?
  {
    RunKeepsInv(states, actions, expireCache, i);
    assert TaskInv(states[i], t);
    var s := states[i];
    match actions[i]
    case Lock(task) => assert task == t;
    case _ =>
  }

  // ---- How long data is kept ----

  lemma KeptIffAlive(data: Data, now: int, expireCache: nat, later: int)
    requires IsFresh(data, now, expireCache)
    ensures data.entry.IsAlive(later) <==> IsKept(data, later, expireCache)
  {
  }

  /** The slot of the URL holds this data, and nobody is fetching anything else into it. */
  ghost predicate Holds(s: State, url: Url, data: Data) {
    && url in s.cache && s.cache[url] in s.slots && s.slots[s.cache[url]] == Some(data)
    && !IsLocked(s, s.cache[url])
  }

  lemma FetchFills(s: State, task: TaskId, result: FetchResult, expireCache: nat)
    requires MapInv(s) && StepFetchDone(s, task, Ok(result), expireCache).Some?
    ensures Holds(StepFetchDone(s, task, Ok(result), expireCache).value, s.tasks[task].url,
                  Data(Filled(result, expireCache, s.now), s.now, result.maxAge))
  {
    assert TaskInv(s, task) && IsFetching(s, task);
    var slot := s.tasks[task].slot;
    assert forall t :: IsFetching(s, t) && s.tasks[t].slot == slot ==> t == task;
  }

  lemma RequestKeepsData(s: State, request: Url, url: Url, data: Data)
    requires MapInv(s) && Holds(s, url, data)
    ensures Holds(StepRequest(s, request), url, data)
  {
    var s', slot := StepRequest(s, request), s.cache[url];
    assert forall t :: IsFetching(s', t) ==> IsFetching(s, t) && s'.tasks[t].slot == s.tasks[t].slot;
  }

  lemma LockKeepsData(s: State, task: TaskId, s': State, url: Url, data: Data)
    requires MapInv(s) && Holds(s, url, data) && StepLock(s, task) == Some(s') && data.entry.IsAlive(s.now)
    ensures Holds(s', url, data)
  {
    var slot := s.cache[url];
    assert forall t :: IsFetching(s', t) && t != task ==> IsFetching(s, t) && s'.tasks[t].slot == s.tasks[t].slot;
    assert s.tasks[task].slot == slot ==> task !in s'.tasks;
  }

  lemma DoneKeepsData(s: State, task: TaskId, outcome: Result<FetchResult, string>, s': State, expireCache: nat,
                      url: Url, data: Data)
    requires MapInv(s) && Holds(s, url, data) && StepFetchDone(s, task, outcome, expireCache) == Some(s')
    ensures Holds(s', url, data)
  {
    assert IsFetching(s, task) && s.tasks[task].slot != s.cache[url];
    assert forall t :: IsFetching(s', t) ==> IsFetching(s, t) && s'.tasks[t].slot == s.tasks[t].slot;
  }

  lemma StepKeepsLiveData(s: State, a: Action, s': State, expireCache: nat, url: Url, data: Data)
    requires MapInv(s) && Holds(s, url, data) && Step(s, a, expireCache) == Some(s') && data.entry.IsAlive(s.now)
    ensures Holds(s', url, data)
  {
    match a
    case Tick(_) => assert forall t :: IsFetching(s', t) ==> IsFetching(s, t) && s'.tasks[t].slot == s.tasks[t].slot;
    case Request(request) => RequestKeepsData(s, request, url, data);
    case Lock(task) => LockKeepsData(s, task, s', url, data);
    case FetchDone(task, outcome) => DoneKeepsData(s, task, outcome, s', expireCache, url, data);
    case CollectGarbage =>
      assert IsRetained(s, s.cache[url]);
      assert forall t :: IsFetching(s', t) ==> IsFetching(s, t) && s'.tasks[t].slot == s.tasks[t].slot;
  }

  lemma {:induction false} TimePasses(states: seq<State>, actions: seq<Action>, expireCache: nat, i: nat, j: nat)
    requires IsRun(states, actions, expireCache) && i <= j < |states|
    ensures states[i].now <= states[j].now
  {
    if i < j {
      TimePasses(states, actions, expireCache, i, j - 1);
      assert Step(states[j - 1], actions[j - 1], expireCache) == Some(states[j]);
    }
  }

  /** What a fetch that ends in step `i` brought. */
  ghost predicate Brings(states: seq<State>, actions: seq<Action>, i: nat, task: TaskId, url: Url, result: FetchResult)
  {
    && i < |actions| && i < |states| && actions[i] == FetchDone(task, Ok(result))
    && task in states[i].tasks && states[i].tasks[task].url == url
  }

  /** Data stays in its slot while either of its two times runs, whatever comes in between. */
  lemma {:induction false} DataIsKept(states: seq<State>, actions: seq<Action>, expireCache: nat, i: nat, j: nat,
                                      task: TaskId, url: Url, result: FetchResult)
    requires IsRun(states, actions, expireCache) && Brings(states, actions, i, task, url, result) && i < j < |states|
    requires states[j].now < states[i].now + expireCache || states[j].now < states[i].now + result.maxAge
    ensures Holds(states[j], url, Data(Filled(result, expireCache, states[i].now), states[i].now, result.maxAge))
  {
    RunKeepsInv(states, actions, expireCache, j - 1);
    assert Step(states[j - 1], actions[j - 1], expireCache) == Some(states[j]);
    if j == i + 1 {
      FetchFills(states[i], task, result, expireCache);
    } else {
      TimePasses(states, actions, expireCache, j - 1, j);
      DataIsKept(states, actions, expireCache, i, j - 1, task, url, result);
      var data := Data(Filled(result, expireCache, states[i].now), states[i].now, result.maxAge);
      KeptIffAlive(data, states[i].now, expireCache, states[j - 1].now);
      StepKeepsLiveData(states[j - 1], actions[j - 1], states[j], expireCache, url, data);
    }
  }

  /**
   After a fetch, every task that gets the lock of that URL while either time runs, `expire_cache` or the
   response's `max-age`, is served the fetched data and does not fetch.
   */
  lemma KeptDataIsServed(states: seq<State>, actions: seq<Action>, expireCache: nat, i: nat, j: nat,
                         task: TaskId, url: Url, result: FetchResult, next: TaskId)
    requires IsRun(states, actions, expireCache) && Brings(states, actions, i, task, url, result) && i < j < |actions|
    requires states[j].now < states[i].now + expireCache || states[j].now < states[i].now + result.maxAge
    requires actions[j] == Lock(next) && next in states[j].tasks && states[j].tasks[next].url == url
    ensures next !in states[j + 1].tasks && |states[j + 1].served| == |states[j].served| + 1
    ensures var r := states[j + 1].served[|states[j].served|];
            && r.url == url && r.at == states[j].now
            && r.data.entry.value == result.data && r.data.fetchedAt == states[i].now
  {
    DataIsKept(states, actions, expireCache, i, j, task, url, result);
    RunKeepsInv(states, actions, expireCache, j);
    assert TaskInv(states[j], next);
    var data := Data(Filled(result, expireCache, states[i].now), states[i].now, result.maxAge);
    KeptIffAlive(data, states[i].now, expireCache, states[j].now);
    assert StepLock(states[j], next) == Some(states[j + 1]);
  }

  /** A task that gets the lock fetches if and only if the slot holds nothing whose time still runs. */
  lemma FetchesIff(states: seq<State>, actions: seq<Action>, expireCache: nat, i: nat, task: TaskId)
    requires IsRun(states, actions, expireCache) && i < |actions| && actions[i] == Lock(task)
    ensures task in states[i].tasks && states[i].tasks[task].slot in states[i].slots
    ensures var slot := states[i].slots[states[i].tasks[task].slot];
            IsFetching(states[i + 1], task) <==> slot.None? || !IsKept(slot.value, states[i].now, expireCache)
  {
    RunKeepsInv(states, actions, expireCache, i);
    assert StepLock(states[i], task) == Some(states[i + 1]);
    var slot := states[i].slots[states[i].tasks[task].slot];
    if slot.Some? {
      KeptIffAlive(slot.value, states[i].now, expireCache, states[i].now);
    }
  }
}
