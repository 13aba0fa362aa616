/** Timed sequences of store messages, and what one message does to one counter. */
module StoreRun {
  import opened Wrappers
  import opened LimitKey
  import opened MemoryStore

  /** A message and the time it is handled at. */
  datatype Timed = Timed(at: int, message: Message)

  /** When the message has been answered; only a fetch takes time. */
  function DoneAt(t: Timed): int {
    if t.message.FetchUrlCached? then t.at + t.message.took else t.at
  }

  /** The messages are handled one after the other, none before `from`. */
  predicate IsTimely(trace: seq<Timed>, from: int) {
    trace != [] ==> from <= trace[0].at && IsTimely(trace[1..], DoneAt(trace[0]))
  }

  function Alive<T>(entry: Option<Entry<T>>, now: int): Option<Entry<T>> {
    if entry.Some? && entry.value.IsAlive(now) then entry else None
  }

  // ---- The counter of one limit and one key ----

  /** The counter of a limit for the requests that share its key with `who`. */
  function CounterKey(who: LimitInput, limit: LimitConfig): string {
    Key(who, limit, "", "|")
  }

  lemma {:induction false} IncrSkips(counters: Counters, limits: seq<LimitConfig>, input: LimitInput, now: int,
                                     who: LimitInput, other: LimitConfig)
    requires forall i :: 0 <= i < |limits| ==> limits[i].id != other.id
    ensures Lookup(IncrAll(counters, limits, input, now).0, CounterKey(who, other))
         == Lookup(counters, CounterKey(who, other))
    decreases |limits|
  {
    if limits != [] {
      IncrSkips(counters, limits[..|limits| - 1], input, now, who, other);
      KeysOfLimitsDiffer(input, who, limits[|limits| - 1], other, "");
    }
  }

  lemma {:induction false} DecrSkips(counters: Counters, limits: seq<LimitConfig>, input: LimitInput, now: int,
                                     who: LimitInput, other: LimitConfig)
    requires forall i :: 0 <= i < |limits| ==> limits[i].id != other.id
    ensures Lookup(DecrAll(counters, limits, input, now), CounterKey(who, other))
         == Lookup(counters, CounterKey(who, other))
    decreases |limits|
  {
    if limits != [] {
      DecrSkips(counters, limits[..|limits| - 1], input, now, who, other);
      KeysOfLimitsDiffer(input, who, limits[|limits| - 1], other, "");
    }
  }

  /**
   Testing all limits hits the counter of limit `i` once if the request has its key and not at all
   otherwise, and passes only if that counter is still within its bound.
   */
  lemma {:induction false} IncrAt(counters: Counters, limits: seq<LimitConfig>, input: LimitInput, now: int,
                                  i: nat, who: LimitInput)
    requires i < |limits| && HaveDistinctIds(limits)
    ensures var key, r := CounterKey(who, limits[i]), IncrAll(counters, limits, input, now);
            if CounterKey(input, limits[i]) == key
            then var entry := IncrEntry(Lookup(counters, key), limits[i], now);
                 Lookup(r.0, key) == Some(entry) && (r.1 ==> entry.value <= limits[i].maxCount)
            else Lookup(r.0, key) == Lookup(counters, key)
    decreases |limits|
  {
    var n := |limits| - 1;
    if i == n {
      IncrSkips(counters, limits[..n], input, now, who, limits[n]);
    } else {
      IncrAt(counters, limits[..n], input, now, i, who);
      KeysOfLimitsDiffer(input, who, limits[n], limits[i], "");
    }
  }

  lemma LookupPut<V>(m: map<string, V>, key: string, entry: Option<V>, k: string)
    ensures Lookup(Put(m, key, entry), k) == if k == key then entry else Lookup(m, k)
  {
  }

  lemma {:induction false} DecrAt(counters: Counters, limits: seq<LimitConfig>, input: LimitInput, now: int,
                                  i: nat, who: LimitInput)
    requires i < |limits| && HaveDistinctIds(limits)
    ensures var key, r := CounterKey(who, limits[i]), DecrAll(counters, limits, input, now);
            Lookup(r, key) == if limits[i].decrComplete && CounterKey(input, limits[i]) == key
                              then DecrEntry(Lookup(counters, key), now) else Lookup(counters, key)
    decreases |limits|
  {
    var n, key := |limits| - 1, CounterKey(who, limits[i]);
    var before := DecrAll(counters, limits[..n], input, now);
    var last := CounterKey(input, limits[n]);
    LookupPut(before, last, DecrEntry(Lookup(before, last), now), key);
    if i == n {
      DecrSkips(counters, limits[..n], input, now, who, limits[n]);
      assert Lookup(before, key) == Lookup(counters, key);
    } else {
      DecrAt(counters, limits[..n], input, now, i, who);
      KeysOfLimitsDiffer(input, who, limits[n], limits[i], "");
      assert last != key;
    }
  }

  predicate IsHit(t: Timed, who: LimitInput, limit: LimitConfig) {
    t.message.IncrAndTestLimits? && CounterKey(t.message.input, limit) == CounterKey(who, limit)
  }

  predicate IsDecrement(t: Timed, who: LimitInput, limit: LimitConfig) {
    t.message.DecrementLimits? && limit.decrComplete && CounterKey(t.message.input, limit) == CounterKey(who, limit)
  }

  /** The live counter after a message, as one counter sees it; `false` when the request is refused. */
  function CounterAfter(entry: Option<Entry<nat>>, t: Timed, who: LimitInput, limit: LimitConfig): Option<Entry<nat>> {
    if IsHit(t, who, limit) then Alive(Some(IncrEntry(entry, limit, t.at)), t.at)
    else if IsDecrement(t, who, limit) then DecrEntry(entry, t.at)
    else Alive(entry, t.at)
  }

  lemma HitOnLive(entry: Option<Entry<nat>>, limit: LimitConfig, now: int)
    ensures IncrEntry(Alive(entry, now), limit, now) == IncrEntry(entry, limit, now)
    ensures DecrEntry(Alive(entry, now), now) == DecrEntry(entry, now) == Alive(DecrEntry(entry, now), now)
  {
  }

  /** Every message of the store acts on one live counter as `CounterAfter` says. */
  lemma CounterStep(s: Store, config: Config, t: Timed, who: LimitInput, i: nat)
    requires config.HasDistinctIds() && i < |config.limits|
    ensures var (s', reply) := Handle(s, config, t.message, t.at);
            var limit := config.limits[i];
            var key := CounterKey(who, limit);
            var before := Lookup(s.counters, key);
            && Alive(Lookup(s'.counters, key), t.at) == CounterAfter(Alive(before, t.at), t, who, limit)
            && (IsHit(t, who, limit) && reply == Tested(true) ==>
                  IncrEntry(Alive(before, t.at), limit, t.at).value <= limit.maxCount)
  {
    var key := CounterKey(who, config.limits[i]);
    HitOnLive(Lookup(s.counters, key), config.limits[i], t.at);
    match t.message
    case IncrAndTestLimits(input) => IncrAt(s.counters, config.limits, input, t.at, i, who);
    case DecrementLimits(input) => DecrAt(s.counters, config.limits, input, t.at, i, who);
    case Gc => SweepKeepsAlive(s.counters, key, t.at);
    case _ =>
  }

  lemma SweepKeepsAlive(counters: Counters, key: string, now: int)
    ensures Alive(Lookup(Sweep(counters, now), key), now) == Alive(Lookup(counters, key), now)
  {
  }
}
