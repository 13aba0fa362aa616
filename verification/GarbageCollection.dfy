/** Garbage collection cannot be observed: it changes no reply, wherever it happens in a run. */
module GarbageCollection {
  import opened Wrappers
  import opened LimitKey
  import opened MemoryStore
  import opened StoreRun

  /** The replies to everything but `Gc`, whose reply only goes to the timer. */
  function Replies(s: Store, config: Config, trace: seq<Timed>): seq<Reply>
    decreases |trace|
  {
    if trace == [] then [] else
    var (s', reply) := Handle(s, config, trace[0].message, trace[0].at);
    (if trace[0].message.Gc? then [] else [reply]) + Replies(s', config, trace[1..])
  }

  function WithoutGc(trace: seq<Timed>): seq<Timed> {
    if trace == [] then []
    else (if trace[0].message.Gc? then [] else [trace[0]]) + WithoutGc(trace[1..])
  }

  // ---- Stores that differ in dead entries only ----

  ghost predicate SameAlive<T(!new)>(a: map<string, Entry<T>>, b: map<string, Entry<T>>, now: int) {
    forall k :: Alive(Lookup(a, k), now) == Alive(Lookup(b, k), now)
  }

  ghost predicate SameCache(a: map<string, CacheSlot>, b: map<string, CacheSlot>, now: int) {
    forall u :: Alive(Slot(a, u), now) == Alive(Slot(b, u), now)
  }

  ghost predicate Similar(a: Store, b: Store, now: int) {
    SameAlive(a.sessions, b.sessions, now) && SameCache(a.cache, b.cache, now) && SameAlive(a.counters, b.counters, now)
  }

  lemma SimilarLater(a: Store, b: Store, now: int, later: int)
    requires Similar(a, b, now) && now <= later
    ensures Similar(a, b, later)
  {
    forall k ensures Alive(Lookup(a.sessions, k), later) == Alive(Lookup(b.sessions, k), later) {
      assert Alive(Lookup(a.sessions, k), now) == Alive(Lookup(b.sessions, k), now);
    }
    forall k ensures Alive(Lookup(a.counters, k), later) == Alive(Lookup(b.counters, k), later) {
      assert Alive(Lookup(a.counters, k), now) == Alive(Lookup(b.counters, k), now);
    }
    forall u ensures Alive(Slot(a.cache, u), later) == Alive(Slot(b.cache, u), later) {
      assert Alive(Slot(a.cache, u), now) == Alive(Slot(b.cache, u), now);
    }
  }

  lemma PutKeepsSame<T(!new)>(a: map<string, Entry<T>>, b: map<string, Entry<T>>, key: string, entry: Option<Entry<T>>,
                              now: int)
    requires SameAlive(a, b, now)
    ensures SameAlive(Put(a, key, entry), Put(b, key, entry), now)
  {
    forall k ensures Alive(Lookup(Put(a, key, entry), k), now) == Alive(Lookup(Put(b, key, entry), k), now) {
      assert Alive(Lookup(a, k), now) == Alive(Lookup(b, k), now);
    }
  }

  lemma {:induction false} IncrKeepsSame(a: Counters, b: Counters, configs: seq<LimitConfig>, input: LimitInput,
                                         now: int)
    requires SameAlive(a, b, now)
    ensures SameAlive(IncrAll(a, configs, input, now).0, IncrAll(b, configs, input, now).0, now)
    ensures IncrAll(a, configs, input, now).1 == IncrAll(b, configs, input, now).1
    decreases |configs|
  {
    if configs != [] {
      var last, rest := configs[|configs| - 1], configs[..|configs| - 1];
      IncrKeepsSame(a, b, rest, input, now);
      var key := Key(input, last, "", "|");
      var x, y := IncrAll(a, rest, input, now).0, IncrAll(b, rest, input, now).0;
      assert Alive(Lookup(x, key), now) == Alive(Lookup(y, key), now);
      PutKeepsSame(x, y, key, Some(IncrEntry(Lookup(x, key), last, now)), now);
    }
  }

  lemma {:induction false} DecrKeepsSame(a: Counters, b: Counters, configs: seq<LimitConfig>, input: LimitInput,
                                         now: int)
    requires SameAlive(a, b, now)
    ensures SameAlive(DecrAll(a, configs, input, now), DecrAll(b, configs, input, now), now)
    decreases |configs|
  {
    if configs != [] {
      var last, rest := configs[|configs| - 1], configs[..|configs| - 1];
      DecrKeepsSame(a, b, rest, input, now);
      var key := Key(input, last, "", "|");
      var x, y := DecrAll(a, rest, input, now), DecrAll(b, rest, input, now);
      assert Alive(Lookup(x, key), now) == Alive(Lookup(y, key), now);
      PutKeepsSame(x, y, key, DecrEntry(Lookup(x, key), now), now);
    }
  }

  /** Slots that are alike while alive serve alike, and are left alike. */
  lemma FetchKeepsSlot(x: CacheSlot, y: CacheSlot, outcome: Result<FetchResult, string>, expireCache: nat, now: int,
                       took: nat)
    requires Alive(x, now) == Alive(y, now)
    ensures Fetch(x, outcome, expireCache, now, took).1 == Fetch(y, outcome, expireCache, now, took).1
    ensures Alive(Fetch(x, outcome, expireCache, now, took).0, now + took)
         == Alive(Fetch(y, outcome, expireCache, now, took).0, now + took)
  {
  }

  lemma PutKeepsCache(a: map<string, CacheSlot>, b: map<string, CacheSlot>, url: string, x: CacheSlot, y: CacheSlot,
                      now: int)
    requires SameCache(a, b, now) && Alive(x, now) == Alive(y, now)
    ensures SameCache(a[url := x], b[url := y], now)
  {
    var c, d := a[url := x], b[url := y];
    forall u ensures Alive(Slot(c, u), now) == Alive(Slot(d, u), now) {
      assert Alive(Slot(a, u), now) == Alive(Slot(b, u), now);
    }
  }

  lemma FetchKeepsSimilar(a: Store, b: Store, config: Config, t: Timed)
    requires t.message.FetchUrlCached? && Similar(a, b, t.at)
    ensures Handle(a, config, t.message, t.at).1 == Handle(b, config, t.message, t.at).1
    ensures Similar(Handle(a, config, t.message, t.at).0, Handle(b, config, t.message, t.at).0, DoneAt(t))
  {
    var FetchUrlCached(url, outcome, took) := t.message;
    var x, y := Slot(a.cache, url), Slot(b.cache, url);
    assert Alive(x, t.at) == Alive(y, t.at);
    FetchKeepsSlot(x, y, outcome, config.expireCache, t.at, took);
    SimilarLater(a, b, t.at, DoneAt(t));
    PutKeepsCache(a.cache, b.cache, url, Fetch(x, outcome, config.expireCache, t.at, took).0,
                  Fetch(y, outcome, config.expireCache, t.at, took).0, DoneAt(t));
  }

  /** Similar stores answer alike and stay similar. */
  lemma HandleKeepsSimilar(a: Store, b: Store, config: Config, t: Timed)
    requires Similar(a, b, t.at) && !t.message.Gc?
    ensures Handle(a, config, t.message, t.at).1 == Handle(b, config, t.message, t.at).1
    ensures Similar(Handle(a, config, t.message, t.at).0, Handle(b, config, t.message, t.at).0, DoneAt(t))
  {
    match t.message
    case SaveSession(id, data) =>
      var entry := Entry(data, t.at + config.expireSessions);
      PutKeepsSame(a.sessions, b.sessions, id, Some(entry), t.at);
    case GetSession(id) =>
      assert Alive(Lookup(a.sessions, id), t.at) == Alive(Lookup(b.sessions, id), t.at);
    case DeleteSession(id) => PutKeepsSame<Session>(a.sessions, b.sessions, id, None, t.at);
    case FetchUrlCached(_, _, _) => FetchKeepsSimilar(a, b, config, t);
    case IncrAndTestLimits(input) => IncrKeepsSame(a.counters, b.counters, config.limits, input, t.at);
    case DecrementLimits(input) => DecrKeepsSame(a.counters, b.counters, config.limits, input, t.at);
  }

  /** Sweeping leaves every live entry alone. */
  lemma GcKeepsSimilar(a: Store, b: Store, config: Config, now: int)
    requires Similar(a, b, now)
    ensures Similar(Handle(a, config, Gc, now).0, b, now)
  {
    var s := Handle(a, config, Gc, now).0;
    forall k ensures Alive(Lookup(s.sessions, k), now) == Alive(Lookup(b.sessions, k), now) {
      assert Alive(Lookup(a.sessions, k), now) == Alive(Lookup(b.sessions, k), now);
    }
    forall k ensures Alive(Lookup(s.counters, k), now) == Alive(Lookup(b.counters, k), now) {
      assert Alive(Lookup(a.counters, k), now) == Alive(Lookup(b.counters, k), now);
    }
    forall u ensures Alive(Slot(s.cache, u), now) == Alive(Slot(b.cache, u), now) {
      assert Alive(Slot(a.cache, u), now) == Alive(Slot(b.cache, u), now);
    }
  }

  lemma {:induction false} SimilarReplies(a: Store, b: Store, config: Config, trace: seq<Timed>, from: int)
    requires Similar(a, b, from) && IsTimely(trace, from)
    ensures Replies(a, config, trace) == Replies(b, config, WithoutGc(trace))
    decreases |trace|
  {
    if trace != [] {
      var t, rest := trace[0], trace[1..];
      var a' := Handle(a, config, t.message, t.at).0;
      SimilarLater(a, b, from, t.at);
      if t.message.Gc? {
        GcKeepsSimilar(a, b, config, t.at);
        SimilarReplies(a', b, config, rest, DoneAt(t));
        assert [] + WithoutGc(rest) == WithoutGc(rest);
      } else {
        HandleKeepsSimilar(a, b, config, t);
        SimilarReplies(a', Handle(b, config, t.message, t.at).0, config, rest, DoneAt(t));
        assert ([t] + WithoutGc(rest))[1..] == WithoutGc(rest);
      }
    }
  }

  /** From any state, over any timed sequence of messages, collections change no reply. */
  lemma GcIsTransparent(s: Store, config: Config, trace: seq<Timed>, from: int)
    requires IsTimely(trace, from)
    ensures Replies(s, config, trace) == Replies(s, config, WithoutGc(trace))
  {
    SimilarReplies(s, s, config, trace, from);
  }
}
