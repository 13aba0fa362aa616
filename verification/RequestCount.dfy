/**
 One request and the counter of a limit: what its test added, its completion takes back, whatever else
 the store handles in between.
 */
module RequestCount {
  import opened Wrappers
  import opened LimitKey
  import opened MemoryStore
  import opened StoreRun
  import opened RateBound

  // ---- One counter over a whole sequence of messages ----

  function CounterRun(e: Option<Entry<nat>>, trace: seq<Timed>, who: LimitInput, limit: LimitConfig): Option<Entry<nat>>
    decreases |trace|
  {
    if trace == [] then e
    else CounterRun(CounterAfter(Alive(e, trace[0].at), trace[0], who, limit), trace[1..], who, limit)
  }

  /** The counter is live whenever a message is handled: its window lasts, and it is not counted down to nothing. */
  predicate Lasts(e: Option<Entry<nat>>, trace: seq<Timed>, who: LimitInput, limit: LimitConfig)
    decreases |trace|
  {
    trace != [] ==>
      && Alive(e, trace[0].at).Some?
      && Lasts(CounterAfter(Alive(e, trace[0].at), trace[0], who, limit), trace[1..], who, limit)
  }

  function Count(e: Option<Entry<nat>>): nat { if e.Some? then e.value.value else 0 }

  function Hits(trace: seq<Timed>, who: LimitInput, limit: LimitConfig): nat {
    if trace == [] then 0 else (if IsHit(trace[0], who, limit) then 1 else 0) + Hits(trace[1..], who, limit)
  }

  function Decrements(trace: seq<Timed>, who: LimitInput, limit: LimitConfig): nat {
    if trace == [] then 0 else (if IsDecrement(trace[0], who, limit) then 1 else 0) + Decrements(trace[1..], who, limit)
  }

  lemma CountStep(e: Option<Entry<nat>>, t: Timed, who: LimitInput, limit: LimitConfig)
    requires Alive(e, t.at).Some? && 1 <= e.value.value < USIZE_MAX
    ensures var after := CounterAfter(Alive(e, t.at), t, who, limit);
            && (after.Some? ==> 1 <= after.value.value <= e.value.value + 1)
            && (after.Some? || IsDecrement(t, who, limit) ==>
                  Count(after) == e.value.value + (if IsHit(t, who, limit) then 1 else 0)
                                  - (if IsDecrement(t, who, limit) then 1 else 0))
  {
  }

  /** While it lasts, a counter is what it was, plus the hits, minus the decrements. */
  lemma {:induction false} LastingCount(e: Option<Entry<nat>>, trace: seq<Timed>, who: LimitInput, limit: LimitConfig)
    requires e.Some? && 1 <= e.value.value && e.value.value + |trace| <= USIZE_MAX
    requires Lasts(e, trace, who, limit) && (trace != [] ==> IsDecrement(trace[|trace| - 1], who, limit))
    ensures Count(CounterRun(e, trace, who, limit))
         == e.value.value + Hits(trace, who, limit) - Decrements(trace, who, limit)
    decreases |trace|
  {
    if trace != [] {
      var after := CounterAfter(Alive(e, trace[0].at), trace[0], who, limit);
      CountStep(e, trace[0], who, limit);
      if |trace| == 1 {
        assert trace[1..] == [];
      } else {
        assert trace[1..][|trace| - 2] == trace[|trace| - 1];
        LastingCount(after, trace[1..], who, limit);
      }
    }
  }

  lemma RunLater(e: Option<Entry<nat>>, trace: seq<Timed>, now: int, who: LimitInput, limit: LimitConfig)
    requires IsTimely(trace, now)
    ensures Alive(CounterRun(Alive(e, now), trace, who, limit), EndsAt(trace, now))
         == Alive(CounterRun(e, trace, who, limit), EndsAt(trace, now))
  {
    if trace == [] {
      AliveTwice(e, now, now);
    } else {
      AliveTwice(e, now, trace[0].at);
    }
  }

  lemma {:induction false} RunIsAlive(e: Option<Entry<nat>>, trace: seq<Timed>, who: LimitInput, limit: LimitConfig)
    requires trace != []
    ensures var end := CounterRun(e, trace, who, limit); Alive(end, trace[|trace| - 1].at) == end
    decreases |trace|
  {
    var after := CounterAfter(Alive(e, trace[0].at), trace[0], who, limit);
    if |trace| == 1 {
      assert trace[1..] == [];
    } else {
      assert trace[1..][|trace| - 2] == trace[|trace| - 1];
      RunIsAlive(after, trace[1..], who, limit);
    }
  }

  /** The store's counter goes through the same run. */
  lemma {:induction false} CounterOfRun(s: Store, config: Config, trace: seq<Timed>, from: int, who: LimitInput, i: nat)
    requires config.HasDistinctIds() && i < |config.limits| && IsTimely(trace, from)
    ensures CounterOf(Final(s, config, trace), who, config.limits[i], EndsAt(trace, from))
         == Alive(CounterRun(CounterOf(s, who, config.limits[i], from), trace, who, config.limits[i]),
                  EndsAt(trace, from))
    decreases |trace|
  {
    if trace == [] {
      AliveTwice(Lookup(s.counters, CounterKey(who, config.limits[i])), from, from);
    } else {
      var limit, t, rest := config.limits[i], trace[0], trace[1..];
      var key := CounterKey(who, limit);
      var s' := Handle(s, config, t.message, t.at).0;
      var after := CounterAfter(Alive(Lookup(s.counters, key), t.at), t, who, limit);
      AliveTwice(Lookup(s.counters, key), from, t.at);
      CounterStep(s, config, t, who, i);
      AliveTwice(Lookup(s'.counters, key), t.at, DoneAt(t));
      CounterOfRun(s', config, rest, DoneAt(t), who, i);
      RunLater(after, rest, DoneAt(t), who, limit);
      assert EndsAt(trace, from) == EndsAt(rest, DoneAt(t));
    }
  }

  // ---- A request from its test to its completion ----

  lemma {:induction false} CountsAppend(trace: seq<Timed>, t: Timed, who: LimitInput, limit: LimitConfig)
    ensures Hits(trace + [t], who, limit) == Hits(trace, who, limit) + if IsHit(t, who, limit) then 1 else 0
    ensures Decrements(trace + [t], who, limit)
         == Decrements(trace, who, limit) + if IsDecrement(t, who, limit) then 1 else 0
  {
    if trace == [] {
      assert trace + [t] == [t];
    } else {
      assert (trace + [t])[1..] == trace[1..] + [t];
      CountsAppend(trace[1..], t, who, limit);
    }
  }

  /** A request of the store that is tested, and at last counted down, with all that comes in between. */
  predicate IsRequest(test: Timed, between: seq<Timed>, completion: Timed, input: LimitInput, from: int) {
    && test.message == IncrAndTestLimits(input) && completion.message == DecrementLimits(input)
    && IsTimely([test] + (between + [completion]), from)
  }

  /**
   The decrement of a request takes back the hit of its test, and only that: for each limit under
   `decr_complete` whose counter lasts until then, the count afterwards is the count before the test
   plus the hits and minus the decrements of all other requests in between, as if the request had
   never been.
   */
  lemma DecrementUndoesTheTest(s: Store, config: Config, test: Timed, between: seq<Timed>, completion: Timed,
                               input: LimitInput, from: int, i: nat)
    requires config.HasDistinctIds() && i < |config.limits| && config.limits[i].decrComplete
    requires IsRequest(test, between, completion, input, from)
    requires var before := CounterOf(s, input, config.limits[i], test.at);
             && (before.Some? ==> 1 <= before.value.value)
             && Count(before) + |between| + 2 <= USIZE_MAX
             && Lasts(Some(IncrEntry(before, config.limits[i], test.at)), between + [completion],
                      input, config.limits[i])
    ensures var limit := config.limits[i];
            var after := CounterOf(Final(s, config, [test] + (between + [completion])), input, limit, completion.at);
            Count(after) == Count(CounterOf(s, input, limit, test.at))
                            + Hits(between, input, limit) - Decrements(between, input, limit)
  {
    var limit := config.limits[i];
    var rest := between + [completion];
    var trace := [test] + rest;
    assert IsTimely(rest, test.at) by {
      assert trace[1..] == rest && trace[0] == test;
    }
    var before := CounterOf(s, input, limit, test.at);
    var hit := IncrEntry(before, limit, test.at);
    assert trace[0] == test && trace[1..] == rest && rest[|rest| - 1] == completion;
    assert EndsAt(trace, from) == completion.at;
    CounterOfRun(s, config, trace, from, input, i);
    AliveTwice(Lookup(s.counters, CounterKey(input, limit)), from, test.at);
    assert Alive(Some(hit), rest[0].at).Some?;
    RunIsAlive(Some(hit), rest, input, limit);
    assert CounterRun(CounterOf(s, input, limit, from), trace, input, limit)
        == CounterRun(Some(hit), rest, input, limit);
    LastingCount(Some(hit), rest, input, limit);
    CountsAppend(between, completion, input, limit);
  }

  /** Limits that are not counted down keep the hit. */
  lemma OthersKeepTheHit(s: Store, config: Config, completion: Timed, input: LimitInput, i: nat)
    requires config.HasDistinctIds() && i < |config.limits| && !config.limits[i].decrComplete
    requires completion.message == DecrementLimits(input)
    ensures forall who :: CounterOf(Final(s, config, [completion]), who, config.limits[i], completion.at)
                       == CounterOf(s, who, config.limits[i], completion.at)
  {
    forall who
      ensures CounterOf(Final(s, config, [completion]), who, config.limits[i], completion.at)
           == CounterOf(s, who, config.limits[i], completion.at)
    {
      CounterStep(s, config, completion, who, i);
      assert [completion][1..] == [];
    }
  }
}
