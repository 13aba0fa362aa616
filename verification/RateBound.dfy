/**
 How many requests a limit lets through: over every timed run of the store, in any time interval as
 long as the limit's window, and how many can be in progress at once when completions are counted
 down again.
 */
module RateBound {
  import opened Wrappers
  import opened LimitKey
  import opened MemoryStore
  import opened StoreRun

  /** The requests of one key that the store accepted at a time in `[lo, hi)`. */
  function AcceptedIn(s: Store, config: Config, trace: seq<Timed>, who: LimitInput, limit: LimitConfig, lo: int,
                      hi: int): nat
    decreases |trace|
  {
    if trace == [] then 0 else
    var (s', reply) := Handle(s, config, trace[0].message, trace[0].at);
    (if IsHit(trace[0], who, limit) && reply == Tested(true) && lo <= trace[0].at < hi then 1 else 0)
    + AcceptedIn(s', config, trace[1..], who, limit, lo, hi)
  }

  function Min(a: nat, b: nat): nat {
    if a < b then a else b
  }

  // ---- Fixed windows ----

  /**
   `n` requests were accepted so far in the interval from `lo`, `now` is the latest time, and `e` the
   live counter: none yet; the interval is over; its first window is running; its second one is; or
   its first one has ended.
   */
  predicate FixedInv(e: Option<Entry<nat>>, now: int, n: nat, lo: int, limit: LimitConfig) {
    || n == 0
    || (now >= lo + limit.window && n <= 2 * limit.maxCount)
    || (e.Some? && n <= Min(e.value.value, limit.maxCount) && e.value.expires > lo)
    || (e.Some? && n <= limit.maxCount + Min(e.value.value, limit.maxCount) && e.value.expires >= lo + limit.window)
    || (e.None? && n <= limit.maxCount && now > lo)
  }

  lemma FixedStep(e: Option<Entry<nat>>, from: int, n: nat, lo: int, t: Timed, who: LimitInput, limit: LimitConfig,
                  accepted: bool)
    requires !limit.extendWindow && !limit.decrComplete && limit.maxCount < USIZE_MAX
    requires e.Some? ==> e.value.IsAlive(from)
    requires from <= t.at && FixedInv(e, from, n, lo, limit)
    requires accepted ==> IsHit(t, who, limit) && IncrEntry(Alive(e, t.at), limit, t.at).value <= limit.maxCount
    ensures FixedInv(CounterAfter(Alive(e, t.at), t, who, limit), t.at,
                     if accepted && lo <= t.at < lo + limit.window then n + 1 else n, lo, limit)
  {
  }

  /** The live counter of the key. */
  function CounterOf(s: Store, who: LimitInput, limit: LimitConfig, now: int): Option<Entry<nat>> {
    Alive(Lookup(s.counters, CounterKey(who, limit)), now)
  }

  lemma AliveTwice(entry: Option<Entry<nat>>, now: int, later: int)
    requires now <= later
    ensures Alive(Alive(entry, now), later) == Alive(entry, later)
  {
  }

  lemma FixedLater(e: Option<Entry<nat>>, now: int, later: int, n: nat, lo: int, limit: LimitConfig)
    requires now <= later && FixedInv(e, now, n, lo, limit) && (e.Some? ==> e.value.IsAlive(now))
    ensures FixedInv(Alive(e, later), later, n, lo, limit)
  {
  }

  lemma {:induction false} FixedRun(s: Store, config: Config, trace: seq<Timed>, from: int, who: LimitInput, i: nat,
                                    lo: int, n: nat)
    requires config.HasDistinctIds() && i < |config.limits| && IsTimely(trace, from)
    requires var limit := config.limits[i];
             !limit.extendWindow && !limit.decrComplete && limit.maxCount < USIZE_MAX
    requires FixedInv(CounterOf(s, who, config.limits[i], from), from, n, lo, config.limits[i])
    ensures var limit := config.limits[i];
            n + AcceptedIn(s, config, trace, who, limit, lo, lo + limit.window) <= 2 * limit.maxCount
    decreases |trace|
  {
    if trace != [] {
      var limit, t := config.limits[i], trace[0];
      var (s', reply) := Handle(s, config, t.message, t.at);
      var accepted := IsHit(t, who, limit) && reply == Tested(true);
      var n' := if accepted && lo <= t.at < lo + limit.window then n + 1 else n;
      var entry := Lookup(s.counters, CounterKey(who, limit));
      AliveTwice(entry, from, t.at);
      CounterStep(s, config, t, who, i);
      FixedStep(CounterOf(s, who, limit, from), from, n, lo, t, who, limit, accepted);
      FixedLater(CounterOf(s', who, limit, t.at), t.at, DoneAt(t), n', lo, limit);
      AliveTwice(Lookup(s'.counters, CounterKey(who, limit)), t.at, DoneAt(t));
      FixedRun(s', config, trace[1..], DoneAt(t), who, i, lo, n');
    }
  }

  /**
   With fixed windows, at most `2 * max_count` requests of one key are accepted in any time interval of
   the window's length: from any state of the store, in every timed run, with all other traffic.
   */
  lemma FixedWindowBound(s: Store, config: Config, trace: seq<Timed>, from: int, who: LimitInput, i: nat, lo: int)
    requires config.HasDistinctIds() && i < |config.limits| && IsTimely(trace, from)
    requires var limit := config.limits[i];
             !limit.extendWindow && !limit.decrComplete && limit.maxCount < USIZE_MAX
    ensures var limit := config.limits[i];
            AcceptedIn(s, config, trace, who, limit, lo, lo + limit.window) <= 2 * limit.maxCount
  {
    FixedRun(s, config, trace, from, who, i, lo, 0);
  }

  // ---- Extended windows ----

  /** As above; once a request was accepted in the interval, its counter outlives the interval. */
  predicate ExtendedInv(e: Option<Entry<nat>>, now: int, n: nat, lo: int, limit: LimitConfig) {
    || n == 0
    || (now >= lo + limit.window && n <= limit.maxCount)
    || (e.Some? && n <= Min(e.value.value, limit.maxCount) && e.value.expires >= lo + limit.window && now >= lo)
  }

  lemma ExtendedStep(e: Option<Entry<nat>>, from: int, n: nat, lo: int, t: Timed, who: LimitInput, limit: LimitConfig,
                     accepted: bool)
    requires limit.extendWindow && !limit.decrComplete && limit.maxCount < USIZE_MAX
    requires e.Some? ==> e.value.IsAlive(from)
    requires from <= t.at && ExtendedInv(e, from, n, lo, limit)
    requires accepted ==> IsHit(t, who, limit) && IncrEntry(Alive(e, t.at), limit, t.at).value <= limit.maxCount
    ensures ExtendedInv(CounterAfter(Alive(e, t.at), t, who, limit), t.at,
                        if accepted && lo <= t.at < lo + limit.window then n + 1 else n, lo, limit)
  {
  }

  lemma ExtendedLater(e: Option<Entry<nat>>, now: int, later: int, n: nat, lo: int, limit: LimitConfig)
    requires now <= later && ExtendedInv(e, now, n, lo, limit) && (e.Some? ==> e.value.IsAlive(now))
    ensures ExtendedInv(Alive(e, later), later, n, lo, limit)
  {
  }

  lemma {:induction false} ExtendedRun(s: Store, config: Config, trace: seq<Timed>, from: int, who: LimitInput, i: nat,
                                       lo: int, n: nat)
    requires config.HasDistinctIds() && i < |config.limits| && IsTimely(trace, from)
    requires var limit := config.limits[i];
             limit.extendWindow && !limit.decrComplete && limit.maxCount < USIZE_MAX
    requires ExtendedInv(CounterOf(s, who, config.limits[i], from), from, n, lo, config.limits[i])
    ensures var limit := config.limits[i];
            n + AcceptedIn(s, config, trace, who, limit, lo, lo + limit.window) <= limit.maxCount
    decreases |trace|
  {
    if trace != [] {
      var limit, t := config.limits[i], trace[0];
      var (s', reply) := Handle(s, config, t.message, t.at);
      var accepted := IsHit(t, who, limit) && reply == Tested(true);
      var n' := if accepted && lo <= t.at < lo + limit.window then n + 1 else n;
      AliveTwice(Lookup(s.counters, CounterKey(who, limit)), from, t.at);
      CounterStep(s, config, t, who, i);
      ExtendedStep(CounterOf(s, who, limit, from), from, n, lo, t, who, limit, accepted);
      ExtendedLater(CounterOf(s', who, limit, t.at), t.at, DoneAt(t), n', lo, limit);
      AliveTwice(Lookup(s'.counters, CounterKey(who, limit)), t.at, DoneAt(t));
      ExtendedRun(s', config, trace[1..], DoneAt(t), who, i, lo, n');
    }
  }

  /** With `extend_window`, at most `max_count` requests of one key are accepted in any such interval. */
  lemma ExtendedWindowBound(s: Store, config: Config, trace: seq<Timed>, from: int, who: LimitInput, i: nat, lo: int)
    requires config.HasDistinctIds() && i < |config.limits| && IsTimely(trace, from)
    requires var limit := config.limits[i];
             limit.extendWindow && !limit.decrComplete && limit.maxCount < USIZE_MAX
    ensures var limit := config.limits[i];
            AcceptedIn(s, config, trace, who, limit, lo, lo + limit.window) <= limit.maxCount
  {
    ExtendedRun(s, config, trace, from, who, i, lo, 0);
  }

  // ---- Requests in progress ----

  /** What happened to one key's counter since its current lifetime began. */
  datatype Ledger = Ledger(hits: nat, decrements: nat, accepted: nat)

  /** A lifetime starts with the hit that creates the counter and ends when it expires or is removed. */
  function LedgerAfter(l: Ledger, e: Option<Entry<nat>>, t: Timed, who: LimitInput, limit: LimitConfig, accepted: bool)
    : Ledger
  {
    var counted := if accepted then 1 else 0;
    if IsHit(t, who, limit) then
      if e.None? then Ledger(1, 0, counted) else Ledger(l.hits + 1, l.decrements, l.accepted + counted)
    else if IsDecrement(t, who, limit) && DecrEntry(e, t.at).Some? then l.(decrements := l.decrements + 1)
    else l
  }

  function LedgerOf(s: Store, config: Config, trace: seq<Timed>, who: LimitInput, limit: LimitConfig, l: Ledger): Ledger
    decreases |trace|
  {
    if trace == [] then l else
    var t := trace[0];
    var (s', reply) := Handle(s, config, t.message, t.at);
    LedgerOf(s', config, trace[1..], who, limit,
             LedgerAfter(l, CounterOf(s, who, limit, t.at), t, who, limit, reply == Tested(true)))
  }

  function Final(s: Store, config: Config, trace: seq<Timed>): Store
    decreases |trace|
  {
    if trace == [] then s else Final(Handle(s, config, trace[0].message, trace[0].at).0, config, trace[1..])
  }

  function EndsAt(trace: seq<Timed>, from: int): int {
    if trace == [] then from else DoneAt(trace[|trace| - 1])
  }

  predicate LedgerInv(e: Option<Entry<nat>>, l: Ledger, limit: LimitConfig) {
    e.Some? ==>
      && e.value.value == l.hits - l.decrements
      && e.value.value >= 1
      && l.accepted - l.decrements <= Min(e.value.value, limit.maxCount)
  }

  lemma LedgerStep(l: Ledger, e: Option<Entry<nat>>, t: Timed, who: LimitInput, limit: LimitConfig, accepted: bool)
    requires LedgerInv(e, l, limit) && (e.Some? ==> e.value.IsAlive(t.at)) && l.hits < USIZE_MAX
    requires accepted && IsHit(t, who, limit) ==> IncrEntry(e, limit, t.at).value <= limit.maxCount
    ensures LedgerInv(CounterAfter(e, t, who, limit), LedgerAfter(l, e, t, who, limit, accepted), limit)
    ensures LedgerAfter(l, e, t, who, limit, accepted).hits <= l.hits + 1
  {
  }

  lemma {:induction false} LedgerRun(s: Store, config: Config, trace: seq<Timed>, from: int, who: LimitInput, i: nat,
                                     l: Ledger)
    requires config.HasDistinctIds() && i < |config.limits| && IsTimely(trace, from)
    requires LedgerInv(CounterOf(s, who, config.limits[i], from), l, config.limits[i])
    requires l.hits + |trace| < USIZE_MAX
    ensures LedgerInv(CounterOf(Final(s, config, trace), who, config.limits[i], EndsAt(trace, from)),
                      LedgerOf(s, config, trace, who, config.limits[i], l), config.limits[i])
    decreases |trace|
  {
    if trace != [] {
      var limit, t := config.limits[i], trace[0];
      var (s', reply) := Handle(s, config, t.message, t.at);
      var accepted := reply == Tested(true);
      AliveTwice(Lookup(s.counters, CounterKey(who, limit)), from, t.at);
      CounterStep(s, config, t, who, i);
      LedgerStep(l, CounterOf(s, who, limit, t.at), t, who, limit, accepted);
      AliveTwice(Lookup(s'.counters, CounterKey(who, limit)), t.at, DoneAt(t));
      LedgerRun(s', config, trace[1..], DoneAt(t), who, i,
                LedgerAfter(l, CounterOf(s, who, limit, t.at), t, who, limit, accepted));
    }
  }

  /**
   In every timed run from the empty store, short of saturating a counter: while a counter lives, its
   value is the hits minus the decrements of its lifetime and at least 1, and the requests accepted and
   not yet counted down never exceed the value or `max_count`.
   */
  lemma InProgressBound(config: Config, trace: seq<Timed>, from: int, who: LimitInput, i: nat)
    requires config.HasDistinctIds() && i < |config.limits| && IsTimely(trace, from) && |trace| < USIZE_MAX
    ensures var limit := config.limits[i];
            var empty := Store(map[], map[], map[]);
            var l := LedgerOf(empty, config, trace, who, limit, Ledger(0, 0, 0));
            var e := CounterOf(Final(empty, config, trace), who, limit, EndsAt(trace, from));
            e.Some? ==>
              && e.value.value == l.hits - l.decrements >= 1
              && l.accepted - l.decrements <= Min(e.value.value, limit.maxCount)
  {
    LedgerRun(Store(map[], map[], map[]), config, trace, from, who, i, Ledger(0, 0, 0));
  }
}
