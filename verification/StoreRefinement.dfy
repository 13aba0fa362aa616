/** The three stores give the same answers: one live counter, seen through three representations. */
module StoreRefinement {
  import opened Wrappers
  import opened LimitKey
  import opened MemoryStore
  import opened StoreRun
  import opened LimitStores

  // ---- One counter ----

  /** The live counter a Redis value stands for. */
  function FromRedis(value: Option<RedisValue>, now: int): Option<Entry<int>> {
    if value.Some? && value.value.expires.Some? && value.value.expires.value > now
    then Some(Entry(value.value.count, value.value.expires.value)) else None
  }

  /** The live counter a row stands for. */
  function FromRow(row: Option<Row>, now: int): Option<Entry<int>> {
    if row.Some? && row.value.expires > now then Some(Entry(row.value.value, row.value.expires)) else None
  }

  predicate HasTtl(value: Option<RedisValue>) {
    value.Some? ==> value.value.expires.Some? && value.value.count >= 1
  }

  /** The increment script does to the live counter what the memory store does. */
  lemma IncrScriptRefines(entry: Option<Entry<nat>>, value: Option<RedisValue>, limit: LimitConfig, now: int)
    requires HasTtl(value) && FromRedis(value, now) == Alive(entry, now)
    requires Alive(entry, now).Some? ==> 1 <= entry.value.value < I64_MAX
    ensures var (after, count) := IncrScript(value, limit.window, limit.extendWindow, now);
            var e := IncrEntry(entry, limit, now);
            && HasTtl(after) && FromRedis(after, now) == Alive(Some(e), now)
            && count == Ok(e.value) && 1 <= e.value
  {
  }

  lemma DecrScriptRefines(entry: Option<Entry<nat>>, value: Option<RedisValue>, now: int)
    requires HasTtl(value) && FromRedis(value, now) == Alive(entry, now)
    ensures var after := DecrScript(value, now);
            HasTtl(after) && FromRedis(after, now) == Alive(DecrEntry(entry, now), now)
  {
  }

  lemma IncrRowRefines(entry: Option<Entry<nat>>, row: Option<Row>, limit: LimitConfig, now: int)
    requires FromRow(row, now) == Alive(entry, now)
    requires Alive(entry, now).Some? ==> entry.value.value < I64_MAX
    ensures var after, e := IncrRow(row, limit, now), IncrEntry(entry, limit, now);
            FromRow(Some(after), now) == Alive(Some(e), now) && after.value == e.value
  {
  }

  // ---- All counters ----

  ghost predicate MatchesRedis(counters: Counters, db: RedisDb, now: int) {
    forall k :: HasTtl(Lookup(db, REDIS_PREFIX + k))
                && FromRedis(Lookup(db, REDIS_PREFIX + k), now) == Alive(Lookup(counters, k), now)
  }

  ghost predicate MatchesSqlite(counters: Counters, table: Table, now: int) {
    forall k :: FromRow(Lookup(table, k), now) == Alive(Lookup(counters, k), now)
  }

  /** Every live counter can still be incremented `room` times within 64 bits. */
  ghost predicate HasRoom(counters: Counters, room: nat, now: int) {
    forall k :: Alive(Lookup(counters, k), now).Some? ==> 1 <= counters[k].value && counters[k].value + room <= I64_MAX
  }

  lemma PrefixIsInjective(prefix: string, j: string, k: string)
    ensures prefix + j == prefix + k <==> j == k
  {
    if prefix + j == prefix + k {
      SamePrefix(prefix, j, k);
    }
  }

  lemma PutMatchesRedis(counters: Counters, db: RedisDb, key: string, entry: Option<Entry<nat>>,
                        value: Option<RedisValue>, now: int)
    requires MatchesRedis(counters, db, now) && HasTtl(value) && FromRedis(value, now) == Alive(entry, now)
    ensures MatchesRedis(Put(counters, key, entry), Put(db, REDIS_PREFIX + key, value), now)
  {
    var c, d := Put(counters, key, entry), Put(db, REDIS_PREFIX + key, value);
    forall k
      ensures HasTtl(Lookup(d, REDIS_PREFIX + k))
      ensures FromRedis(Lookup(d, REDIS_PREFIX + k), now) == Alive(Lookup(c, k), now)
    {
      PrefixIsInjective(REDIS_PREFIX, key, k);
      assert HasTtl(Lookup(db, REDIS_PREFIX + k));
      assert FromRedis(Lookup(db, REDIS_PREFIX + k), now) == Alive(Lookup(counters, k), now);
    }
  }

  lemma {:induction false} IncrKeepsRoom(counters: Counters, limits: seq<LimitConfig>, input: LimitInput, now: int,
                                         room: nat)
    requires HasRoom(counters, room, now) && |limits| <= room <= I64_MAX
    ensures HasRoom(IncrAll(counters, limits, input, now).0, room - |limits|, now)
    decreases |limits|
  {
    if limits != [] {
      var last, rest := limits[|limits| - 1], limits[..|limits| - 1];
      IncrKeepsRoom(counters, rest, input, now, room);
      var before, key := IncrAll(counters, rest, input, now).0, Key(input, last, "", "|");
      var entry := IncrEntry(Lookup(before, key), last, now);
      assert Alive(Lookup(before, key), now).Some? ==> before[key].value + (room - |rest|) <= I64_MAX;
      var after := before[key := entry];
      forall k | Alive(Lookup(after, k), now).Some?
        ensures 1 <= after[k].value && after[k].value + (room - |limits|) <= I64_MAX
      {
        if k != key {
          assert Alive(Lookup(before, k), now).Some?;
        }
      }
    }
  }

  lemma {:induction false} IncrMatchesRedis(counters: Counters, db: RedisDb, limits: seq<LimitConfig>,
                                            input: LimitInput, now: int, room: nat)
    requires MatchesRedis(counters, db, now) && HasRoom(counters, room, now) && |limits| <= room <= I64_MAX
    ensures var (c, ok) := IncrAll(counters, limits, input, now);
            var (d, reply) := RedisIncr(db, limits, input, now, {});
            MatchesRedis(c, d, now) && reply == Ok(ok)
    decreases |limits|
  {
    if limits != [] {
      var last, rest := limits[|limits| - 1], limits[..|limits| - 1];
      IncrMatchesRedis(counters, db, rest, input, now, room);
      IncrKeepsRoom(counters, rest, input, now, room);
      var c, d := IncrAll(counters, rest, input, now).0, RedisIncr(db, rest, input, now, {}).0;
      var key := Key(input, last, "", "|");
      PrefixIsNamespace(input, last, REDIS_PREFIX);
      IncrLastMatchesRedis(c, d, last, key, now);
    }
  }

  lemma {:induction false} IncrMatchesSqlite(counters: Counters, table: Table, limits: seq<LimitConfig>,
                                             input: LimitInput, now: int, room: nat)
    requires MatchesSqlite(counters, table, now) && HasRoom(counters, room, now) && |limits| <= room <= I64_MAX
    ensures var (c, ok) := IncrAll(counters, limits, input, now);
            var (t, ok') := SqliteIncr(table, limits, input, now);
            MatchesSqlite(c, t, now) && ok' == ok
    decreases |limits|
  {
    if limits != [] {
      var last, rest := limits[|limits| - 1], limits[..|limits| - 1];
      IncrMatchesSqlite(counters, table, rest, input, now, room);
      IncrKeepsRoom(counters, rest, input, now, room);
      var c, t := IncrAll(counters, rest, input, now).0, SqliteIncr(table, rest, input, now).0;
      IncrLastMatchesSqlite(c, t, last, Key(input, last, "", "|"), now);
    }
  }

  lemma IncrLastMatchesRedis(c: Counters, d: RedisDb, last: LimitConfig, key: string, now: int)
    requires MatchesRedis(c, d, now) && HasRoom(c, 1, now)
    ensures var entry := IncrEntry(Lookup(c, key), last, now);
            var (value, count) := IncrScript(Lookup(d, REDIS_PREFIX + key), last.window, last.extendWindow, now);
            && MatchesRedis(c[key := entry], Put(d, REDIS_PREFIX + key, value), now)
            && count == Ok(entry.value)
  {
    var value := Lookup(d, REDIS_PREFIX + key);
    assert HasTtl(value) && FromRedis(value, now) == Alive(Lookup(c, key), now);
    IncrScriptRefines(Lookup(c, key), value, last, now);
    PutMatchesRedis(c, d, key, Some(IncrEntry(Lookup(c, key), last, now)),
                    IncrScript(value, last.window, last.extendWindow, now).0, now);
  }

  lemma IncrLastMatchesSqlite(c: Counters, t: Table, last: LimitConfig, key: string, now: int)
    requires MatchesSqlite(c, t, now) && HasRoom(c, 1, now)
    ensures var entry, row := IncrEntry(Lookup(c, key), last, now), IncrRow(Lookup(t, key), last, now);
            MatchesSqlite(c[key := entry], t[key := row], now) && row.value == entry.value
  {
    assert FromRow(Lookup(t, key), now) == Alive(Lookup(c, key), now);
    IncrRowRefines(Lookup(c, key), Lookup(t, key), last, now);
    var entry, row := IncrEntry(Lookup(c, key), last, now), IncrRow(Lookup(t, key), last, now);
    var c', t' := c[key := entry], t[key := row];
    forall k ensures FromRow(Lookup(t', k), now) == Alive(Lookup(c', k), now) {
      assert FromRow(Lookup(t, k), now) == Alive(Lookup(c, k), now);
    }
  }

  /** Every counter that Redis still shows can be incremented `room` times within 64 bits. */
  ghost predicate HasRedisRoom(db: RedisDb, room: nat, now: int) {
    forall k :: Visible(Lookup(db, REDIS_PREFIX + k), now).Some? ==> db[REDIS_PREFIX + k].count + room <= I64_MAX
  }

  lemma RoomInRedis(counters: Counters, db: RedisDb, now: int, room: nat)
    requires MatchesRedis(counters, db, now) && HasRoom(counters, room, now)
    ensures HasRedisRoom(db, room, now)
  {
    forall k | Visible(Lookup(db, REDIS_PREFIX + k), now).Some?
      ensures db[REDIS_PREFIX + k].count + room <= I64_MAX
    {
      assert FromRedis(Lookup(db, REDIS_PREFIX + k), now) == Alive(Lookup(counters, k), now);
    }
  }

  lemma IncrScriptKeepsRoom(db: RedisDb, key: string, limit: LimitConfig, now: int, room: nat)
    requires HasRedisRoom(db, room + 1, now) && room < I64_MAX
    ensures var (value, count) := IncrScript(Lookup(db, REDIS_PREFIX + key), limit.window, limit.extendWindow, now);
            count.Ok? && HasRedisRoom(Put(db, REDIS_PREFIX + key, value), room, now)
  {
    var (value, count) := IncrScript(Lookup(db, REDIS_PREFIX + key), limit.window, limit.extendWindow, now);
    assert Visible(Lookup(db, REDIS_PREFIX + key), now).Some? ==> db[REDIS_PREFIX + key].count + (room + 1) <= I64_MAX;
    var after := Put(db, REDIS_PREFIX + key, value);
    forall k | Visible(Lookup(after, REDIS_PREFIX + k), now).Some?
      ensures after[REDIS_PREFIX + k].count + room <= I64_MAX
    {
      PrefixIsInjective(REDIS_PREFIX, key, k);
      if k != key {
        assert Visible(Lookup(db, REDIS_PREFIX + k), now).Some?;
      }
    }
  }

  /** With room for all of them no script fails, so none is abandoned. */
  lemma {:induction false} NoScriptFails(db: RedisDb, limits: seq<LimitConfig>, input: LimitInput, now: int,
                                         abandoned: set<nat>, room: nat)
    requires HasRedisRoom(db, room, now) && |limits| <= room <= I64_MAX
    ensures var (d, reply) := RedisIncr(db, limits, input, now, abandoned);
            reply.Ok? && HasRedisRoom(d, room - |limits|, now)
    decreases |limits|
  {
    if limits != [] {
      var last, rest := limits[|limits| - 1], limits[..|limits| - 1];
      NoScriptFails(db, rest, input, now, abandoned, room);
      PrefixIsNamespace(input, last, REDIS_PREFIX);
      IncrScriptKeepsRoom(RedisIncr(db, rest, input, now, abandoned).0, Key(input, last, "", "|"), last, now,
                          room - |limits|);
    }
  }

  lemma {:induction false} DecrMatches(counters: Counters, db: RedisDb, limits: seq<LimitConfig>, input: LimitInput,
                                       now: int)
    requires MatchesRedis(counters, db, now)
    ensures MatchesRedis(DecrAll(counters, limits, input, now), RedisDecr(db, limits, input, now), now)
    decreases |limits|
  {
    if limits != [] {
      var last, rest := limits[|limits| - 1], limits[..|limits| - 1];
      DecrMatches(counters, db, rest, input, now);
      var c, d := DecrAll(counters, rest, input, now), RedisDecr(db, rest, input, now);
      var key := Key(input, last, "", "|");
      PrefixIsNamespace(input, last, REDIS_PREFIX);
      assert HasTtl(Lookup(d, REDIS_PREFIX + key));
      assert FromRedis(Lookup(d, REDIS_PREFIX + key), now) == Alive(Lookup(c, key), now);
      DecrScriptRefines(Lookup(c, key), Lookup(d, REDIS_PREFIX + key), now);
      PutMatchesRedis(c, d, key, DecrEntry(Lookup(c, key), now), DecrScript(Lookup(d, REDIS_PREFIX + key), now), now);
    }
  }

  lemma {:induction false} DecrKeepsRoom(counters: Counters, limits: seq<LimitConfig>, input: LimitInput, now: int,
                                         room: nat)
    requires HasRoom(counters, room, now)
    ensures HasRoom(DecrAll(counters, limits, input, now), room, now)
    decreases |limits|
  {
    if limits != [] {
      var last, rest := limits[|limits| - 1], limits[..|limits| - 1];
      DecrKeepsRoom(counters, rest, input, now, room);
      var before, key := DecrAll(counters, rest, input, now), Key(input, last, "", "|");
      assert Alive(Lookup(before, key), now).Some? ==> before[key].value + room <= I64_MAX;
      var after := Put(before, key, DecrEntry(Lookup(before, key), now));
      forall k | Alive(Lookup(after, k), now).Some? ensures 1 <= after[k].value && after[k].value + room <= I64_MAX {
        assert Alive(Lookup(before, k), now).Some?;
      }
    }
  }

  // ---- Runs ----

  /**
   One limit operation of a request, and when it is handled. `abandoned` are the limits whose scripts
   Redis does not run because another one has failed.
   */
  datatype Op = Incr(at: int, input: LimitInput, abandoned: set<nat>) | Decr(at: int, input: LimitInput)

  predicate IsOrdered(ops: seq<Op>, from: int) {
    ops != [] ==> from <= ops[0].at && IsOrdered(ops[1..], ops[0].at)
  }

  /** How many counters the operations increment. */
  function Increments(ops: seq<Op>, n: nat): nat {
    if ops == [] then 0 else (if ops[0].Incr? then n else 0) + Increments(ops[1..], n)
  }

  function MemoryAnswers(counters: Counters, limits: seq<LimitConfig>, ops: seq<Op>): seq<bool>
    decreases |ops|
  {
    if ops == [] then [] else
    match ops[0]
    case Incr(at, input, _) =>
      var (c, ok) := IncrAll(counters, limits, input, at);
      [ok] + MemoryAnswers(c, limits, ops[1..])
    case Decr(at, input) => MemoryAnswers(DecrAll(counters, limits, input, at), limits, ops[1..])
  }

  function RedisAnswers(db: RedisDb, limits: seq<LimitConfig>, ops: seq<Op>): seq<Result<bool, string>>
    decreases |ops|
  {
    if ops == [] then [] else
    match ops[0]
    case Incr(at, input, abandoned) =>
      var (d, reply) := RedisIncr(db, limits, input, at, abandoned);
      [reply] + RedisAnswers(d, limits, ops[1..])
    case Decr(at, input) => RedisAnswers(RedisDecr(db, limits, input, at), limits, ops[1..])
  }

  /** Scripts are abandoned only behind a failure. */
  predicate AbandonsRightly(db: RedisDb, limits: seq<LimitConfig>, ops: seq<Op>)
    decreases |ops|
  {
    ops != [] ==>
      match ops[0]
      case Incr(at, input, abandoned) =>
        && MayAbandon(db, limits, input, at, abandoned)
        && AbandonsRightly(RedisIncr(db, limits, input, at, abandoned).0, limits, ops[1..])
      case Decr(at, input) => AbandonsRightly(RedisDecr(db, limits, input, at), limits, ops[1..])
  }

  function SqliteAnswers(table: Table, limits: seq<LimitConfig>, ops: seq<Op>): seq<bool>
    decreases |ops|
  {
    if ops == [] then [] else
    match ops[0]
    case Incr(at, input, _) =>
      var (t, ok) := SqliteIncr(table, limits, input, at);
      [ok] + SqliteAnswers(t, limits, ops[1..])
    case Decr(at, input) => SqliteAnswers(SqliteDecr(table, limits, input, at), limits, ops[1..])
  }

  /** The answers as replies without an error among them. */
  function AllOk(answers: seq<bool>): seq<Result<bool, string>> {
    if answers == [] then [] else [Ok(answers[0])] + AllOk(answers[1..])
  }

  lemma AllOkFirst(ok: bool, answers: seq<bool>)
    ensures AllOk([ok] + answers) == [Ok(ok)] + AllOk(answers)
  {
    assert ([ok] + answers)[1..] == answers;
  }

  lemma MatchLater(counters: Counters, db: RedisDb, table: Table, room: nat, now: int, later: int)
    requires now <= later
    ensures MatchesRedis(counters, db, now) ==> MatchesRedis(counters, db, later)
    ensures MatchesSqlite(counters, table, now) ==> MatchesSqlite(counters, table, later)
    ensures HasRoom(counters, room, now) ==> HasRoom(counters, room, later)
  {
    if MatchesRedis(counters, db, now) {
      forall k ensures HasTtl(Lookup(db, REDIS_PREFIX + k))
                       && FromRedis(Lookup(db, REDIS_PREFIX + k), later) == Alive(Lookup(counters, k), later) {
        assert FromRedis(Lookup(db, REDIS_PREFIX + k), now) == Alive(Lookup(counters, k), now);
      }
    }
    if MatchesSqlite(counters, table, now) {
      forall k ensures FromRow(Lookup(table, k), later) == Alive(Lookup(counters, k), later) {
        assert FromRow(Lookup(table, k), now) == Alive(Lookup(counters, k), now);
      }
    }
    if HasRoom(counters, room, now) {
      forall k | Alive(Lookup(counters, k), later).Some?
        ensures 1 <= counters[k].value && counters[k].value + room <= I64_MAX
      {
        assert Alive(Lookup(counters, k), now).Some?;
      }
    }
  }

  lemma {:induction false} RedisRun(counters: Counters, db: RedisDb, limits: seq<LimitConfig>, ops: seq<Op>, from: int,
                                    room: nat)
    requires MatchesRedis(counters, db, from) && IsOrdered(ops, from) && AbandonsRightly(db, limits, ops)
    requires HasRoom(counters, room, from) && Increments(ops, |limits|) <= room <= I64_MAX
    ensures RedisAnswers(db, limits, ops) == AllOk(MemoryAnswers(counters, limits, ops))
    decreases |ops|
  {
    if ops != [] {
      var now, input := ops[0].at, ops[0].input;
      MatchLater(counters, db, map[], room, from, now);
      if ops[0].Incr? {
        RoomInRedis(counters, db, now, room);
        NoScriptFails(db, limits, input, now, ops[0].abandoned, room);
        assert ops[0].abandoned == {};
        IncrMatchesRedis(counters, db, limits, input, now, room);
        IncrKeepsRoom(counters, limits, input, now, room);
        var (c, ok) := IncrAll(counters, limits, input, now);
        AllOkFirst(ok, MemoryAnswers(c, limits, ops[1..]));
        RedisRun(c, RedisIncr(db, limits, input, now, {}).0, limits, ops[1..], now, room - |limits|);
      } else {
        DecrMatches(counters, db, limits, input, now);
        DecrKeepsRoom(counters, limits, input, now, room);
        RedisRun(DecrAll(counters, limits, input, now), RedisDecr(db, limits, input, now), limits, ops[1..], now, room);
      }
    }
  }

  /**
   Memory and Redis give the same answers to every timed sequence of increments and decrements over any
   limits, as long as fewer than 2^63 increments are made.
   */
  lemma RedisAgreesWithMemory(limits: seq<LimitConfig>, ops: seq<Op>, from: int)
    requires IsOrdered(ops, from) && AbandonsRightly(map[], limits, ops) && Increments(ops, |limits|) <= I64_MAX
    ensures RedisAnswers(map[], limits, ops) == AllOk(MemoryAnswers(map[], limits, ops))
  {
    RedisRun(map[], map[], limits, ops, from, Increments(ops, |limits|));
  }

  lemma {:induction false} SqliteRun(counters: Counters, table: Table, limits: seq<LimitConfig>, ops: seq<Op>,
                                     from: int, room: nat)
    requires MatchesSqlite(counters, table, from) && IsOrdered(ops, from)
    requires forall i :: 0 <= i < |ops| ==> ops[i].Incr?
    requires HasRoom(counters, room, from) && Increments(ops, |limits|) <= room <= I64_MAX
    ensures MemoryAnswers(counters, limits, ops) == SqliteAnswers(table, limits, ops)
    decreases |ops|
  {
    if ops != [] {
      var now, input := ops[0].at, ops[0].input;
      MatchLater(counters, map[], table, room, from, now);
      IncrMatchesSqlite(counters, table, limits, input, now, room);
      IncrKeepsRoom(counters, limits, input, now, room);
      SqliteRun(IncrAll(counters, limits, input, now).0, SqliteIncr(table, limits, input, now).0,
                limits, ops[1..], now, room - |limits|);
    }
  }

  /** Memory and SQLite give the same answers to every timed sequence of increments. */
  lemma SqliteAgreesWithMemory(limits: seq<LimitConfig>, ops: seq<Op>, from: int)
    requires IsOrdered(ops, from) && (forall i :: 0 <= i < |ops| ==> ops[i].Incr?)
    requires Increments(ops, |limits|) <= I64_MAX
    ensures MemoryAnswers(map[], limits, ops) == SqliteAnswers(map[], limits, ops)
  {
    SqliteRun(map[], map[], limits, ops, from, Increments(ops, |limits|));
  }

  // ---- Where SQLite goes its own way ----

  /**
   SQLite's decrement compares against the end of a window that starts now. On the same live counter it
   leaves what the memory store leaves if and only if the counter is gone or at its last hit anyway, or
   expires later than a window from now.
   */
  lemma SqliteDecrementAgreesIff(entry: Option<Entry<nat>>, row: Option<Row>, limit: LimitConfig, now: int)
    requires FromRow(row, now) == Alive(entry, now)
    ensures FromRow(DecrRow(row, limit, now), now) == Alive(DecrEntry(entry, now), now)
            <==> (Alive(entry, now).None? || entry.value.value <= 1 || entry.value.expires > now + limit.window)
  {
  }
}
