/**
 Rate limits in the two other stores: Redis, whose counters are changed by two scripts, and SQLite,
 whose counters are rows changed by statements in a transaction. Both read a whole-second clock, and
 both hold 64-bit signed integers. A Redis key is gone at its expiry time.
 */
module LimitStores {
  import opened Wrappers
  import opened LimitKey

  const I64_MAX: nat := 0x7FFF_FFFF_FFFF_FFFF
  const REDIS_PREFIX: string := "rate-limit:"

  // ---- Redis ----

  /** An integer value, and when `EXPIRE` will remove it; `None` is a key without time to live. */
  datatype RedisValue = RedisValue(count: int, expires: Option<int>)

  type RedisDb = map<string, RedisValue>

  /** What commands see of a key. */
  function Visible(value: Option<RedisValue>, now: int): Option<RedisValue> {
    if value.Some? && value.value.expires.Some? && value.value.expires.value <= now then None else value
  }

  /** `INCR`, then `EXPIRE` if this was the first hit or the window is extended. */
  function IncrScript(value: Option<RedisValue>, window: nat, extend: bool, now: int)
    : (Option<RedisValue>, Result<int, string>)
  {
    var before := Visible(value, now);
    var count := (if before.Some? then before.value.count else 0) + 1;
    if count > I64_MAX then (before, Err("increment or decrement would overflow")) else
    var expires := if count == 1 || extend then Some(now + window)
                   else if before.Some? then before.value.expires else None;
    (Some(RedisValue(count, expires)), Ok(count))
  }

  /** `DECR`, then `DEL` if nothing is left. */
  function DecrScript(value: Option<RedisValue>, now: int): Option<RedisValue> {
    var before := Visible(value, now);
    var count := (if before.Some? then before.value.count else 0) - 1;
    if count <= 0 then None else Some(RedisValue(count, if before.Some? then before.value.expires else None))
  }

  /**
   The scripts of all limits, joined by `try_join_all`: if one fails the reply is its error, else all
   counts must be in bounds. The scripts of the limits in `abandoned` do not run any more.
   */
  function RedisIncr(db: RedisDb, limits: seq<LimitConfig>, input: LimitInput, now: int, abandoned: set<nat>)
    : (RedisDb, Result<bool, string>)
  {
    if limits == [] then (db, Ok(true)) else
    var last := limits[|limits| - 1];
    var (before, ok) := RedisIncr(db, limits[..|limits| - 1], input, now, abandoned);
    if |limits| - 1 in abandoned then (before, ok) else
    var key := Key(input, last, REDIS_PREFIX, "|");
    var (value, count) := IncrScript(Lookup(before, key), last.window, last.extendWindow, now);
    (Put(before, key, value), Both(ok, count, last.maxCount))
  }

  function Both(ok: Result<bool, string>, count: Result<int, string>, maxCount: nat): Result<bool, string> {
    if ok.Err? then ok else if count.Err? then Err(count.error) else Ok(ok.value && count.value <= maxCount)
  }

  /** Scripts are abandoned only when another one has failed. */
  predicate MayAbandon(db: RedisDb, limits: seq<LimitConfig>, input: LimitInput, now: int, abandoned: set<nat>) {
    abandoned == {} || RedisIncr(db, limits, input, now, abandoned).1.Err?
  }

  /** One more limit at the end. */
  lemma RedisIncrNext(db: RedisDb, limits: seq<LimitConfig>, input: LimitInput, now: int, abandoned: set<nat>, i: nat)
    requires i < |limits|
    ensures var (before, ok) := RedisIncr(db, limits[..i], input, now, abandoned);
            var key := Key(input, limits[i], REDIS_PREFIX, "|");
            var (value, count) := IncrScript(Lookup(before, key), limits[i].window, limits[i].extendWindow, now);
            RedisIncr(db, limits[..i + 1], input, now, abandoned) ==
            if i in abandoned then (before, ok) else (Put(before, key, value), Both(ok, count, limits[i].maxCount))
  {
    assert limits[..i + 1][..i] == limits[..i];
  }

  function RedisDecr(db: RedisDb, limits: seq<LimitConfig>, input: LimitInput, now: int): RedisDb {
    if limits == [] then db else
    var last := limits[|limits| - 1];
    var before := RedisDecr(db, limits[..|limits| - 1], input, now);
    var key := Key(input, last, REDIS_PREFIX, "|");
    if last.decrComplete then Put(before, key, DecrScript(Lookup(before, key), now)) else before
  }

  class RedisLimits {
    const limits: seq<LimitConfig>
    var db: RedisDb

    constructor (limits: seq<LimitConfig>)
      ensures this.limits == limits && db == map[]
    {
      this.limits, db := limits, map[];
    }

    /** The increment script, command by command. */
    method InvokeIncr(key: string, window: nat, extend: bool, now: int) returns (reply: Result<int, string>)
      modifies this
      ensures var (value, count) := IncrScript(Lookup(old(db), key), window, extend, now);
              db == Put(old(db), key, value) && reply == count
    {
      var count := 1;
      var ttl: Option<int> := None;
      if key in db && (db[key].expires.None? || db[key].expires.value > now) {
        count := db[key].count + 1;
        ttl := db[key].expires;
      } else {
        db := db - {key};
      }
      if count > I64_MAX {
        return Err("increment or decrement would overflow");
      }
      db := db[key := RedisValue(count, ttl)];
      if count == 1 || extend {
        db := db[key := db[key].(expires := Some(now + window))];
      }
      reply := Ok(count);
    }

    /** The decrement script. */
    method InvokeDecr(key: string, now: int)
      modifies this
      ensures db == Put(old(db), key, DecrScript(Lookup(old(db), key), now))
    {
      var count := -1;
      var ttl: Option<int> := None;
      if key in db && (db[key].expires.None? || db[key].expires.value > now) {
        count := db[key].count - 1;
        ttl := db[key].expires;
      }
      db := db[key := RedisValue(count, ttl)];
      if count <= 0 {
        db := db - {key};
      }
    }

    method IncrAndTestLimits(input: LimitInput, now: int, abandoned: set<nat>) returns (reply: Result<bool, string>)
      requires MayAbandon(db, limits, input, now, abandoned)
      modifies this
      ensures (db, reply) == RedisIncr(old(db), limits, input, now, abandoned)
      ensures abandoned != {} ==> reply.Err?
    {
      reply := Ok(true);
      var i := 0;
      while i < |limits|
        invariant i <= |limits|
        invariant (db, reply) == RedisIncr(old(db), limits[..i], input, now, abandoned)
      {
        var limit := limits[i];
        RedisIncrNext(old(db), limits, input, now, abandoned, i);
        if i !in abandoned {
          var key := BuildKey(input, limit, REDIS_PREFIX, "|");
          var count := InvokeIncr(key, limit.window, limit.extendWindow, now);
          if reply.Ok? {
            reply := if count.Err? then Err(count.error) else Ok(reply.value && count.value <= limit.maxCount);
          }
        }
        i := i + 1;
      }
      assert limits[..i] == limits;
    }

    method DecrLimits(input: LimitInput, now: int)
      modifies this
      ensures db == RedisDecr(old(db), limits, input, now)
    {
      var i := 0;
      while i < |limits|
        invariant i <= |limits|
        invariant db == RedisDecr(old(db), limits[..i], input, now)
      {
        assert limits[..i + 1][..i] == limits[..i];
        if limits[i].decrComplete {
          var key := BuildKey(input, limits[i], REDIS_PREFIX, "|");
          InvokeDecr(key, now);
        }
        i := i + 1;
      }
      assert limits[..i] == limits;
    }
  }

  // ---- SQLite ----

  datatype Row = Row(value: int, expires: int)

  /** The `rate_limits` table by its primary key. */
  type Table = map<string, Row>

  /** Delete the row if expired, then insert it or count it up. */
  function IncrRow(row: Option<Row>, limit: LimitConfig, now: int): Row {
    if row.None? || row.value.expires <= now then Row(1, now + limit.window)
    else Row(row.value.value + 1, if limit.extendWindow then now + limit.window else row.value.expires)
  }

  function SqliteIncr(table: Table, limits: seq<LimitConfig>, input: LimitInput, now: int): (Table, bool) {
    if limits == [] then (table, true) else
    var last := limits[|limits| - 1];
    var (before, ok) := SqliteIncr(table, limits[..|limits| - 1], input, now);
    var key := Key(input, last, "", "|");
    var row := IncrRow(Lookup(before, key), last, now);
    (before[key := row], ok && row.value <= last.maxCount)
  }

  lemma SqliteIncrNext(table: Table, limits: seq<LimitConfig>, input: LimitInput, now: int, i: nat)
    requires i < |limits|
    ensures var (before, ok) := SqliteIncr(table, limits[..i], input, now);
            var key := Key(input, limits[i], "", "|");
            var row := IncrRow(Lookup(before, key), limits[i], now);
            SqliteIncr(table, limits[..i + 1], input, now)
            == (before[key := row], ok && row.value <= limits[i].maxCount)
  {
    assert limits[..i + 1][..i] == limits[..i];
  }

  /** The decrement as written: it deletes up to `now + window`, and counts down what is left. */
  function DecrRow(row: Option<Row>, limit: LimitConfig, now: int): Option<Row> {
    if row.None? || row.value.expires <= now + limit.window || row.value.value <= 1 then None
    else Some(row.value.(value := row.value.value - 1))
  }

  function SqliteDecr(table: Table, limits: seq<LimitConfig>, input: LimitInput, now: int): Table {
    if limits == [] then table else
    var last := limits[|limits| - 1];
    var before := SqliteDecr(table, limits[..|limits| - 1], input, now);
    var key := Key(input, last, "", "|");
    if last.decrComplete then Put(before, key, DecrRow(Lookup(before, key), last, now)) else before
  }

  lemma SqliteDecrNext(table: Table, limits: seq<LimitConfig>, input: LimitInput, now: int, i: nat)
    requires i < |limits|
    ensures var before := SqliteDecr(table, limits[..i], input, now);
            var key := Key(input, limits[i], "", "|");
            SqliteDecr(table, limits[..i + 1], input, now) ==
            if limits[i].decrComplete then Put(before, key, DecrRow(Lookup(before, key), limits[i], now)) else before
  {
    assert limits[..i + 1][..i] == limits[..i];
  }

  class SqliteLimits {
    const limits: seq<LimitConfig>
    var table: Table

    constructor (limits: seq<LimitConfig>)
      ensures this.limits == limits && table == map[]
    {
      this.limits, table := limits, map[];
    }

    /** One transaction: `DELETE`, `INSERT ... ON CONFLICT DO UPDATE`, `SELECT`. */
    method Transact(id: string, limit: LimitConfig, now: int) returns (count: int)
      modifies this
      ensures table == old(table)[id := IncrRow(Lookup(old(table), id), limit, now)]
      ensures count == table[id].value
    {
      if id in table && table[id].expires <= now {
        table := table - {id};
      }
      if limit.extendWindow {
        table := table[id := Row(if id in table then table[id].value + 1 else 1, now + limit.window)];
      } else {
        table := table[id := if id in table then table[id].(value := table[id].value + 1)
                             else Row(1, now + limit.window)];
      }
      count := table[id].value;
    }

    method IncrAndTestLimits(input: LimitInput, now: int) returns (ok: bool)
      modifies this
      ensures (table, ok) == SqliteIncr(old(table), limits, input, now)
    {
      ok := true;
      var i := 0;
      while i < |limits|
        invariant i <= |limits|
        invariant (table, ok) == SqliteIncr(old(table), limits[..i], input, now)
      {
        SqliteIncrNext(old(table), limits, input, now, i);
        var id := BuildKey(input, limits[i], "", "|");
        var count := Transact(id, limits[i], now);
        ok := ok && count <= limits[i].maxCount;
        i := i + 1;
      }
      assert limits[..i] == limits;
    }

    /** One transaction: `DELETE` and `UPDATE`. */
    method TransactDecr(id: string, limit: LimitConfig, now: int)
      modifies this
      ensures table == Put(old(table), id, DecrRow(Lookup(old(table), id), limit, now))
    {
      var expires := now + limit.window;
      if id in table && (table[id].expires <= expires || table[id].value <= 1) {
        table := table - {id};
      }
      if id in table {
        table := table[id := table[id].(value := table[id].value - 1)];
      }
    }

    method DecrLimits(input: LimitInput, now: int)
      modifies this
      ensures table == SqliteDecr(old(table), limits, input, now)
    {
      var i := 0;
      while i < |limits|
        invariant i <= |limits|
        invariant table == SqliteDecr(old(table), limits[..i], input, now)
      {
        SqliteDecrNext(old(table), limits, input, now, i);
        if limits[i].decrComplete {
          var id := BuildKey(input, limits[i], "", "|");
          TransactDecr(id, limits[i], now);
        }
        i := i + 1;
      }
      assert limits[..i] == limits;
    }
  }
}
