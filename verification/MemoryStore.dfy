/**
 The in-memory store: sessions, cached URLs and rate limit counters that expire, and the garbage
 collector that sweeps them. The clock is read once per handler call and passed in as `now`.
 */
module MemoryStore {
  import opened Wrappers
  import opened LimitKey

  const USIZE_MAX: nat := 0xFFFF_FFFF_FFFF_FFFF

  datatype Entry<+T> = Entry(value: T, expires: int) {
    predicate IsAlive(now: int) {
      expires > now
    }
  }

  type Session = string
  type Counters = map<string, Entry<nat>>

  /** A URL's slot in the cache; the slot may be there without any data in it. */
  type CacheSlot = Option<Entry<string>>

  datatype FetchResult = FetchResult(data: string, maxAge: nat)

  datatype Config = Config(expireSessions: nat, expireCache: nat, limits: seq<LimitConfig>) {
    predicate HasDistinctIds() {
      HaveDistinctIds(limits)
    }
  }

  function Max(a: nat, b: nat): nat {
    if a < b then b else a
  }

  // ---- One entry ----

  function SaturatingIncr(n: nat): nat {
    if n < USIZE_MAX then n + 1 else USIZE_MAX
  }

  /** One hit on a counter: an expired or missing one starts over. */
  function IncrEntry(entry: Option<Entry<nat>>, config: LimitConfig, now: int): Entry<nat> {
    if entry.None? || !entry.value.IsAlive(now) then Entry(1, now + config.window)
    else Entry(SaturatingIncr(entry.value.value),
               if config.extendWindow then now + config.window else entry.value.expires)
  }

  /** One completion: an expired counter, or one about to reach zero, is removed. */
  function DecrEntry(entry: Option<Entry<nat>>, now: int): Option<Entry<nat>> {
    if entry.None? || !entry.value.IsAlive(now) || entry.value.value <= 1 then None
    else Some(entry.value.(value := entry.value.value - 1))
  }

  /** What a slot serves without fetching. */
  function Hit(slot: CacheSlot, now: int): Option<string> {
    if slot.Some? && slot.value.IsAlive(now) then Some(slot.value.value) else None
  }

  function Filled(result: FetchResult, expireCache: nat, now: int): Entry<string> {
    Entry(result.data, now + Max(expireCache, result.maxAge))
  }

  /** What a slot is left with and what is replied: its live data, or the outcome of a fetch. */
  function Fetch(slot: CacheSlot, outcome: Result<FetchResult, string>, expireCache: nat, now: int, took: nat)
    : (CacheSlot, Result<string, string>)
  {
    var hit := Hit(slot, now);
    if hit.Some? then (slot, Ok(hit.value))
    else if outcome.Err? then (slot, Err(outcome.error))
    else (Some(Filled(outcome.value, expireCache, now + took)), Ok(outcome.value.data))
  }

  /** `entry(url).or_default()` */
  function Slot(cache: map<string, CacheSlot>, url: string): CacheSlot {
    if url in cache then cache[url] else None
  }

  // ---- All limits of one request ----

  /** Every limit is incremented, also after one has refused; the request passes if none refuses. */
  function IncrAll(counters: Counters, configs: seq<LimitConfig>, input: LimitInput, now: int): (Counters, bool) {
    if configs == [] then (counters, true) else
    var last := configs[|configs| - 1];
    var (before, ok) := IncrAll(counters, configs[..|configs| - 1], input, now);
    var key := Key(input, last, "", "|");
    var entry := IncrEntry(Lookup(before, key), last, now);
    (before[key := entry], ok && entry.value <= last.maxCount)
  }

  function DecrAll(counters: Counters, configs: seq<LimitConfig>, input: LimitInput, now: int): Counters {
    if configs == [] then counters else
    var last := configs[|configs| - 1];
    var before := DecrAll(counters, configs[..|configs| - 1], input, now);
    var key := Key(input, last, "", "|");
    if last.decrComplete then Put(before, key, DecrEntry(Lookup(before, key), now)) else before
  }

  lemma IncrNext(counters: Counters, configs: seq<LimitConfig>, input: LimitInput, now: int, i: nat)
    requires i < |configs|
    ensures var (before, ok) := IncrAll(counters, configs[..i], input, now);
            var key := Key(input, configs[i], "", "|");
            var entry := IncrEntry(Lookup(before, key), configs[i], now);
            IncrAll(counters, configs[..i + 1], input, now)
            == (before[key := entry], ok && entry.value <= configs[i].maxCount)
  {
    assert configs[..i + 1][..i] == configs[..i];
  }

  lemma DecrNext(counters: Counters, configs: seq<LimitConfig>, input: LimitInput, now: int, i: nat)
    requires i < |configs|
    ensures var before := DecrAll(counters, configs[..i], input, now);
            var key := Key(input, configs[i], "", "|");
            DecrAll(counters, configs[..i + 1], input, now) ==
            if configs[i].decrComplete then Put(before, key, DecrEntry(Lookup(before, key), now)) else before
  {
    assert configs[..i + 1][..i] == configs[..i];
  }

  function Sweep<T>(m: map<string, Entry<T>>, now: int): map<string, Entry<T>> {
    map k | k in m && m[k].IsAlive(now) :: m[k]
  }

  // ---- The store as a value, and its messages ----

  datatype Store = Store(sessions: map<string, Entry<Session>>, cache: map<string, CacheSlot>, counters: Counters)

  /**
   The messages of the store. A fetch comes with the outcome it would have and the time it would take;
   it is answered while no other task uses its slot.
   */
  datatype Message =
    | SaveSession(id: string, data: Session)
    | GetSession(id: string)
    | DeleteSession(id: string)
    | FetchUrlCached(url: string, outcome: Result<FetchResult, string>, took: nat)
    | IncrAndTestLimits(input: LimitInput)
    | DecrementLimits(input: LimitInput)
    | Gc

  datatype Reply =
    | Done
    | Loaded(session: Option<Session>)
    | Fetched(data: Result<string, string>)
    | Tested(ok: bool)

  function Handle(s: Store, config: Config, message: Message, now: int): (Store, Reply) {
    match message
    case SaveSession(id, data) => (s.(sessions := s.sessions[id := Entry(data, now + config.expireSessions)]), Done)
    case GetSession(id) =>
      var entry := Lookup(s.sessions, id);
      (s, Loaded(if entry.Some? && entry.value.IsAlive(now) then Some(entry.value.value) else None))
    case DeleteSession(id) => (s.(sessions := s.sessions - {id}), Done)
    case FetchUrlCached(url, outcome, took) =>
      var (slot, data) := Fetch(Slot(s.cache, url), outcome, config.expireCache, now, took);
      (s.(cache := s.cache[url := slot]), Fetched(data))
    case IncrAndTestLimits(input) =>
      var (counters, ok) := IncrAll(s.counters, config.limits, input, now);
      (s.(counters := counters), Tested(ok))
    case DecrementLimits(input) => (s.(counters := DecrAll(s.counters, config.limits, input, now)), Done)
    case Gc =>
      (Store(Sweep(s.sessions, now),
             map u | u in s.cache && Hit(s.cache[u], now).Some? :: s.cache[u],
             Sweep(s.counters, now)),
       Done)
  }

  // ---- The agent ----

  class MemoryStore {
    const config: Config
    var sessions: map<string, Entry<Session>>
    var cache: map<string, CacheSlot>
    var limits: Counters

    constructor (config: Config)
      ensures this.config == config && View() == Store(map[], map[], map[])
    {
      this.config := config;
      sessions, cache, limits := map[], map[], map[];
    }

    function View(): Store
      reads this
    {
      Store(sessions, cache, limits)
    }

    method SaveSession(id: string, data: Session, now: int)
      modifies this
      ensures (View(), Done) == Handle(old(View()), config, Message.SaveSession(id, data), now)
    {
      sessions := sessions[id := Entry(data, now + config.expireSessions)];
    }

    method GetSession(id: string, now: int) returns (session: Option<Session>)
      ensures (View(), Loaded(session)) == Handle(View(), config, Message.GetSession(id), now)
    {
      session := None;
      if id in sessions && sessions[id].IsAlive(now) {
        session := Some(sessions[id].value);
      }
    }

    method DeleteSession(id: string)
      modifies this
      ensures forall now :: (View(), Done) == Handle(old(View()), config, Message.DeleteSession(id), now)
    {
      sessions := sessions - {id};
    }

    /** `entry(url).or_default()`, then under the slot's lock: serve it, or fetch and fill it. */
    method FetchUrlCached(url: string, outcome: Result<FetchResult, string>, took: nat, now: int)
      returns (reply: Result<string, string>)
      modifies this
      ensures (View(), Fetched(reply)) == Handle(old(View()), config, Message.FetchUrlCached(url, outcome, took), now)
    {
      if url !in cache {
        cache := cache[url := None];
      }
      var slot := cache[url];
      assert old(cache)[url := slot] == cache;
      if slot.Some? && slot.value.IsAlive(now) {
        return Ok(slot.value.value);
      }
      if outcome.Err? {
        return Err(outcome.error);
      }
      cache := cache[url := Some(Filled(outcome.value, config.expireCache, now + took))];
      assert cache == old(cache)[url := cache[url]];
      reply := Ok(outcome.value.data);
    }

    /** One limit's turn in the loop below. */
    method IncrCounter(key: string, limit: LimitConfig, now: int) returns (count: nat)
      modifies this`limits
      ensures limits == old(limits)[key := IncrEntry(Lookup(old(limits), key), limit, now)]
      ensures count == limits[key].value
    {
      if key in limits {
        var entry := limits[key];
        if entry.expires <= now {
          limits := limits[key := Entry(1, now + limit.window)];
          count := 1;
        } else {
          var expires := if limit.extendWindow then now + limit.window else entry.expires;
          count := SaturatingIncr(entry.value);
          limits := limits[key := Entry(count, expires)];
        }
      } else {
        limits := limits[key := Entry(1, now + limit.window)];
        count := 1;
      }
    }

    method IncrAndTestLimits(input: LimitInput, now: int) returns (ok: bool)
      modifies this
      ensures (View(), Tested(ok)) == Handle(old(View()), config, Message.IncrAndTestLimits(input), now)
    {
      ok := true;
      var i := 0;
      while i < |config.limits|
        invariant i <= |config.limits|
        invariant View() == old(View()).(counters := limits)
        invariant (limits, ok) == IncrAll(old(limits), config.limits[..i], input, now)
      {
        var limit := config.limits[i];
        IncrNext(old(limits), config.limits, input, now, i);
        var key := BuildKey(input, limit, "", "|");
        var count := IncrCounter(key, limit, now);
        ok := ok && count <= limit.maxCount;
        i := i + 1;
      }
      assert config.limits[..i] == config.limits;
    }

    method DecrCounter(key: string, now: int)
      modifies this`limits
      ensures limits == Put(old(limits), key, DecrEntry(Lookup(old(limits), key), now))
    {
      if key in limits {
        var entry := limits[key];
        if entry.expires <= now || entry.value <= 1 {
          limits := limits - {key};
        } else {
          limits := limits[key := entry.(value := entry.value - 1)];
        }
      }
    }

    method DecrLimits(input: LimitInput, now: int)
      modifies this
      ensures (View(), Done) == Handle(old(View()), config, Message.DecrementLimits(input), now)
    {
      var i := 0;
      while i < |config.limits|
        invariant i <= |config.limits|
        invariant View() == old(View()).(counters := limits)
        invariant limits == DecrAll(old(limits), config.limits[..i], input, now)
      {
        var limit := config.limits[i];
        DecrNext(old(limits), config.limits, input, now, i);
        if limit.decrComplete {
          var key := BuildKey(input, limit, "", "|");
          DecrCounter(key, now);
        }
        i := i + 1;
      }
      assert config.limits[..i] == config.limits;
    }

    /** Sweep everything that has expired, and every cache slot that serves nothing. */
    method Gc(now: int)
      modifies this
      ensures (View(), Done) == Handle(old(View()), config, Message.Gc, now)
    {
      sessions := map k | k in sessions && sessions[k].IsAlive(now) :: sessions[k];
      cache := map u | u in cache && cache[u].Some? && cache[u].value.IsAlive(now) :: cache[u];
      limits := map k | k in limits && limits[k].IsAlive(now) :: limits[k];
      assert sessions == Sweep(old(sessions), now) && limits == Sweep(old(limits), now);
      assert cache == map u | u in old(cache) && Hit(old(cache)[u], now).Some? :: old(cache)[u];
    }
  }
}
