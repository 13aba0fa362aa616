/**
 The other side of a rate limit: which requests it must let through. A limit forgets, at the latest, a
 window after the last hit, and a fixed window never counts a hit for longer than that.
 */
module RateAcceptance {
  import opened Wrappers
  import opened LimitKey
  import opened MemoryStore
  import opened StoreRun
  import opened RateBound
  import opened StoreAnswers

  // ---- The verdict ----

  /** This hit leaves the counter of the limit within its bound. */
  predicate IsWithin(counters: Counters, limit: LimitConfig, input: LimitInput, now: int) {
    IncrEntry(Lookup(counters, CounterKey(input, limit)), limit, now).value <= limit.maxCount
  }

  /** A conjunction built up one verdict at a time. */
  lemma {:induction false} AllHold(verdicts: seq<bool>, within: seq<bool>)
    requires |verdicts| == |within| + 1 && verdicts[0]
    requires forall i :: 0 <= i < |within| ==> verdicts[i + 1] == (verdicts[i] && within[i])
    ensures verdicts[|within|] <==> forall i :: 0 <= i < |within| ==> within[i]
  {
    if within != [] {
      AllHold(verdicts[..|within|], within[..|within| - 1]);
    }
  }

  function Verdict(counters: Counters, limits: seq<LimitConfig>, n: nat, input: LimitInput, now: int): bool
    requires n <= |limits|
  {
    IncrAll(counters, limits[..n], input, now).1
  }

  lemma FirstVerdict(counters: Counters, limits: seq<LimitConfig>, input: LimitInput, now: int)
    ensures Verdict(counters, limits, 0, input, now)
  {
  }

  /** The limits before do not touch this one's counter. */
  lemma NextVerdict(counters: Counters, limits: seq<LimitConfig>, n: nat, input: LimitInput, now: int)
    requires HaveDistinctIds(limits) && n < |limits|
    ensures Verdict(counters, limits, n + 1, input, now) <==>
              Verdict(counters, limits, n, input, now) && IsWithin(counters, limits[n], input, now)
  {
    IncrNext(counters, limits, input, now, n);
    IncrSkips(counters, limits[..n], input, now, input, limits[n]);
  }

  function Verdicts(counters: Counters, limits: seq<LimitConfig>, input: LimitInput, now: int): (verdicts: seq<bool>)
    ensures |verdicts| == |limits| + 1
  {
    seq(|limits| + 1, n requires 0 <= n <= |limits| => Verdict(counters, limits, n, input, now))
  }

  function Within(counters: Counters, limits: seq<LimitConfig>, input: LimitInput, now: int): (within: seq<bool>)
    ensures |within| == |limits|
  {
    seq(|limits|, i requires 0 <= i < |limits| => IsWithin(counters, limits[i], input, now))
  }

  lemma VerdictStep(counters: Counters, limits: seq<LimitConfig>, input: LimitInput, now: int, i: nat)
    requires HaveDistinctIds(limits) && i < |limits|
    ensures var verdicts := Verdicts(counters, limits, input, now);
            verdicts[i + 1] == (verdicts[i] && Within(counters, limits, input, now)[i])
  {
    NextVerdict(counters, limits, i, input, now);
  }

  lemma LastVerdict(counters: Counters, limits: seq<LimitConfig>, input: LimitInput, now: int)
    requires HaveDistinctIds(limits)
    ensures var verdicts, within := Verdicts(counters, limits, input, now), Within(counters, limits, input, now);
            verdicts[|limits|] <==> forall i :: 0 <= i < |limits| ==> within[i]
  {
    FirstVerdict(counters, limits, input, now);
    var verdicts, within := Verdicts(counters, limits, input, now), Within(counters, limits, input, now);
    forall i | 0 <= i < |limits|
      ensures verdicts[i + 1] == (verdicts[i] && within[i])
    {
      VerdictStep(counters, limits, input, now, i);
    }
    AllHold(verdicts, within);
  }

  lemma WithinIff(counters: Counters, limits: seq<LimitConfig>, input: LimitInput, now: int, within: seq<bool>)
    requires within == Within(counters, limits, input, now)
    ensures (forall i :: 0 <= i < |limits| ==> within[i]) <==>
              forall i :: 0 <= i < |limits| ==> IsWithin(counters, limits[i], input, now)
  {
    assert forall i :: 0 <= i < |limits| ==> within[i] == IsWithin(counters, limits[i], input, now);
  }

  lemma WholeVerdict(counters: Counters, limits: seq<LimitConfig>, input: LimitInput, now: int)
    ensures Verdicts(counters, limits, input, now)[|limits|] == IncrAll(counters, limits, input, now).1
  {
    assert limits[..|limits|] == limits;
  }

  /** A request passes if and only if no limit's counter is over its bound with this hit. */
  lemma PassesIff(counters: Counters, limits: seq<LimitConfig>, input: LimitInput, now: int)
    requires HaveDistinctIds(limits)
    ensures IncrAll(counters, limits, input, now).1 <==>
              forall i :: 0 <= i < |limits| ==> IsWithin(counters, limits[i], input, now)
  {
    LastVerdict(counters, limits, input, now);
    WholeVerdict(counters, limits, input, now);
    WithinIff(counters, limits, input, now, Within(counters, limits, input, now));
  }

  // ---- What a counter holds ----

  /** The hits of a key at or after `lo`. */
  function HitsSince(trace: seq<Timed>, who: LimitInput, limit: LimitConfig, lo: int): nat {
    if trace == [] then 0
    else
      var t := trace[|trace| - 1];
      HitsSince(trace[..|trace| - 1], who, limit, lo) + if IsHit(t, who, limit) && lo <= t.at then 1 else 0
  }

  lemma {:induction false} FewerSinceLater(trace: seq<Timed>, who: LimitInput, limit: LimitConfig, lo: int, later: int)
    requires lo <= later
    ensures HitsSince(trace, who, limit, later) <= HitsSince(trace, who, limit, lo)
  {
    if trace != [] {
      FewerSinceLater(trace[..|trace| - 1], who, limit, lo, later);
    }
  }

  lemma {:induction false} HitsAreBefore(trace: seq<Timed>, who: LimitInput, limit: LimitConfig, lo: int, from: int)
    requires IsTimely(trace, from) && HitsSince(trace, who, limit, lo) >= 1
    ensures lo <= EndsAt(trace, from)
  {
    var prefix, t := trace[..|trace| - 1], trace[|trace| - 1];
    TimelyPrefix(trace, from);
    if !(IsHit(t, who, limit) && lo <= t.at) {
      HitsAreBefore(prefix, who, limit, lo, from);
    }
  }

  /** A live counter dates from a hit, and without `extend_window` counts no more than the hits since then. */
  predicate Dated(e: Option<Entry<nat>>, trace: seq<Timed>, who: LimitInput, limit: LimitConfig) {
    e.Some? ==>
      var hits := HitsSince(trace, who, limit, e.value.expires - limit.window);
      hits >= 1 && (!limit.extendWindow ==> e.value.value <= hits)
  }

  lemma DatedStep(e: Option<Entry<nat>>, prefix: seq<Timed>, t: Timed, who: LimitInput, limit: LimitConfig)
    requires Dated(e, prefix, who, limit)
    requires e.Some? ==> e.value.expires - limit.window <= t.at
    ensures Dated(CounterAfter(e, t, who, limit), prefix + [t], who, limit)
  {
    assert (prefix + [t])[..|prefix + [t]| - 1] == prefix;
  }

  lemma {:induction false} CountersAreDated(config: Config, trace: seq<Timed>, from: int, who: LimitInput, i: nat,
                                            now: int)
    requires config.HasDistinctIds() && i < |config.limits|
    requires IsTimely(trace, from) && EndsAt(trace, from) <= now
    ensures Dated(CounterOf(Final(Store(map[], map[], map[]), config, trace), who, config.limits[i], now),
                  trace, who, config.limits[i])
    decreases |trace|
  {
    if trace != [] {
      var empty, limit := Store(map[], map[], map[]), config.limits[i];
      var prefix, t := trace[..|trace| - 1], trace[|trace| - 1];
      var before, key := Final(empty, config, prefix), CounterKey(who, limit);
      TimelyPrefix(trace, from);
      FinalAppend(empty, config, prefix, t);
      assert prefix + [t] == trace;
      CountersAreDated(config, prefix, from, who, i, t.at);
      var e := CounterOf(before, who, limit, t.at);
      if e.Some? {
        HitsAreBefore(prefix, who, limit, e.value.expires - limit.window, from);
      }
      DatedStep(e, prefix, t, who, limit);
      CounterStep(before, config, t, who, i);
      AliveTwice(Lookup(Handle(before, config, t.message, t.at).0.counters, key), t.at, now);
    }
  }

  // ---- Acceptance ----

  /** The hits whose window still runs at `now`. */
  function RecentHits(trace: seq<Timed>, who: LimitInput, limit: LimitConfig, now: int): nat {
    HitsSince(trace, who, limit, now - limit.window + 1)
  }

  /** A limit with fixed windows that has seen too few recent hits to be full, or any limit that has seen none. */
  predicate MustPass(trace: seq<Timed>, input: LimitInput, limit: LimitConfig, now: int) {
    || (!limit.extendWindow && RecentHits(trace, input, limit, now) < limit.maxCount)
    || (RecentHits(trace, input, limit, now) == 0 && 1 <= limit.maxCount)
  }

  lemma CountWithin(e: Option<Entry<nat>>, trace: seq<Timed>, input: LimitInput, limit: LimitConfig, now: int)
    requires Dated(e, trace, input, limit) && MustPass(trace, input, limit, now) && (e.Some? ==> e.value.IsAlive(now))
    ensures IncrEntry(e, limit, now).value <= limit.maxCount
  {
    if e.Some? {
      FewerSinceLater(trace, input, limit, now - limit.window + 1, e.value.expires - limit.window);
    }
  }

  lemma LimitPasses(config: Config, trace: seq<Timed>, from: int, input: LimitInput, i: nat, now: int)
    requires config.HasDistinctIds() && i < |config.limits|
    requires IsTimely(trace, from) && EndsAt(trace, from) <= now && MustPass(trace, input, config.limits[i], now)
    ensures IsWithin(Final(Store(map[], map[], map[]), config, trace).counters, config.limits[i], input, now)
  {
    var limit, s := config.limits[i], Final(Store(map[], map[], map[]), config, trace);
    CountersAreDated(config, trace, from, input, i, now);
    CountWithin(CounterOf(s, input, limit, now), trace, input, limit, now);
    HitOnLive(Lookup(s.counters, CounterKey(input, limit)), limit, now);
  }

  /**
   After every timed sequence of messages, a request is accepted when each limit has too few recent hits
   of its key to be full: fewer than `max_count` within the last window, or, with `extend_window`, none.
   */
  lemma FewRecentHitsPass(config: Config, trace: seq<Timed>, from: int, input: LimitInput, now: int)
    requires config.HasDistinctIds() && IsTimely(trace, from) && EndsAt(trace, from) <= now
    requires forall i :: 0 <= i < |config.limits| ==> MustPass(trace, input, config.limits[i], now)
    ensures Handle(Final(Store(map[], map[], map[]), config, trace), config, Message.IncrAndTestLimits(input), now).1
         == Tested(true)
  {
    var s := Final(Store(map[], map[], map[]), config, trace);
    forall i | 0 <= i < |config.limits|
      ensures IsWithin(s.counters, config.limits[i], input, now)
    {
      LimitPasses(config, trace, from, input, i, now);
    }
    PassesIff(s.counters, config.limits, input, now);
  }
}
