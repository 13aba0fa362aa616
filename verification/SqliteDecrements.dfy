/**
 Where the SQLite store goes its own way: its decrement compares a row's expiry with the end of a window
 that starts now. In every run it deletes the row, and so agrees with the memory store exactly on
 counters that are gone or at their last hit.
 */
module SqliteDecrements {
  import opened Wrappers
  import opened LimitKey
  import opened MemoryStore
  import opened StoreRun
  import opened LimitStores
  import opened StoreRefinement

  // ---- Every run ----

  predicate ExpiresInTime(table: Table, key: string, limit: LimitConfig, now: int) {
    key in table ==> table[key].expires <= now + limit.window
  }

  /** No row of a limit expires later than a window from now. */
  ghost predicate TableInv(table: Table, limits: seq<LimitConfig>, now: int) {
    forall i, who: LimitInput :: 0 <= i < |limits| ==> ExpiresInTime(table, CounterKey(who, limits[i]), limits[i], now)
  }

  lemma TableLater(table: Table, limits: seq<LimitConfig>, now: int, later: int)
    requires TableInv(table, limits, now) && now <= later
    ensures TableInv(table, limits, later)
  {
    forall i, who: LimitInput | 0 <= i < |limits|
      ensures ExpiresInTime(table, CounterKey(who, limits[i]), limits[i], later)
    {
      assert ExpiresInTime(table, CounterKey(who, limits[i]), limits[i], now);
    }
  }

  /** A new row of limit `m`, if there is one, that expires in time. */
  lemma PutKeepsTable(table: Table, limits: seq<LimitConfig>, input: LimitInput, m: nat, row: Option<Row>, now: int)
    requires TableInv(table, limits, now) && HaveDistinctIds(limits) && m < |limits|
    requires row.Some? ==> row.value.expires <= now + limits[m].window
    ensures TableInv(Put(table, CounterKey(input, limits[m]), row), limits, now)
  {
    var after := Put(table, CounterKey(input, limits[m]), row);
    forall i, who: LimitInput | 0 <= i < |limits|
      ensures ExpiresInTime(after, CounterKey(who, limits[i]), limits[i], now)
    {
      assert ExpiresInTime(table, CounterKey(who, limits[i]), limits[i], now);
      if i != m {
        KeysOfLimitsDiffer(input, who, limits[m], limits[i], "");
      }
    }
  }

  /** One limit's turn of an increment. */
  lemma HitKeepsTable(table: Table, limits: seq<LimitConfig>, input: LimitInput, now: int, m: nat)
    requires TableInv(table, limits, now) && HaveDistinctIds(limits) && m < |limits|
    ensures var key := CounterKey(input, limits[m]);
            TableInv(table[key := IncrRow(Lookup(table, key), limits[m], now)], limits, now)
  {
    var key := CounterKey(input, limits[m]);
    assert ExpiresInTime(table, key, limits[m], now);
    PutKeepsTable(table, limits, input, m, Some(IncrRow(Lookup(table, key), limits[m], now)), now);
  }

  /** One limit's turn of a decrement. */
  lemma CompletionKeepsTable(table: Table, limits: seq<LimitConfig>, input: LimitInput, now: int, m: nat)
    requires TableInv(table, limits, now) && HaveDistinctIds(limits) && m < |limits|
    ensures var key := CounterKey(input, limits[m]);
            TableInv(Put(table, key, DecrRow(Lookup(table, key), limits[m], now)), limits, now)
  {
    RowIsDeleted(table, limits, input, now, m);
    PutKeepsTable(table, limits, input, m, None, now);
  }

  lemma RowIsDeleted(table: Table, limits: seq<LimitConfig>, input: LimitInput, now: int, i: nat)
    requires TableInv(table, limits, now) && i < |limits|
    ensures DecrRow(Lookup(table, CounterKey(input, limits[i])), limits[i], now).None?
  {
    assert ExpiresInTime(table, CounterKey(input, limits[i]), limits[i], now);
  }

  lemma {:induction false} IncrKeepsTable(table: Table, limits: seq<LimitConfig>, input: LimitInput, now: int, m: nat)
    requires TableInv(table, limits, now) && HaveDistinctIds(limits) && m <= |limits|
    ensures TableInv(SqliteIncr(table, limits[..m], input, now).0, limits, now)
  {
    if m > 0 {
      IncrKeepsTable(table, limits, input, now, m - 1);
      HitKeepsTable(SqliteIncr(table, limits[..m - 1], input, now).0, limits, input, now, m - 1);
      SqliteIncrNext(table, limits, input, now, m - 1);
    }
  }

  lemma {:induction false} DecrKeepsTable(table: Table, limits: seq<LimitConfig>, input: LimitInput, now: int, m: nat)
    requires TableInv(table, limits, now) && HaveDistinctIds(limits) && m <= |limits|
    ensures TableInv(SqliteDecr(table, limits[..m], input, now), limits, now)
  {
    if m > 0 {
      DecrKeepsTable(table, limits, input, now, m - 1);
      CompletionKeepsTable(SqliteDecr(table, limits[..m - 1], input, now), limits, input, now, m - 1);
      SqliteDecrNext(table, limits, input, now, m - 1);
    }
  }

  function TableAfter(table: Table, limits: seq<LimitConfig>, ops: seq<Op>): Table
    decreases |ops|
  {
    if ops == [] then table else
    match ops[0]
    case Incr(at, input, _) => TableAfter(SqliteIncr(table, limits, input, at).0, limits, ops[1..])
    case Decr(at, input) => TableAfter(SqliteDecr(table, limits, input, at), limits, ops[1..])
  }

  function LastAt(ops: seq<Op>, from: int): int {
    if ops == [] then from else ops[|ops| - 1].at
  }

  lemma {:induction false} RunKeepsTable(table: Table, limits: seq<LimitConfig>, ops: seq<Op>, from: int)
    requires TableInv(table, limits, from) && HaveDistinctIds(limits) && IsOrdered(ops, from)
    ensures TableInv(TableAfter(table, limits, ops), limits, LastAt(ops, from))
    decreases |ops|
  {
    if ops != [] {
      var now, input := ops[0].at, ops[0].input;
      TableLater(table, limits, from, now);
      assert limits[..|limits|] == limits;
      assert LastAt(ops, from) == LastAt(ops[1..], now);
      if ops[0].Incr? {
        IncrKeepsTable(table, limits, input, now, |limits|);
        RunKeepsTable(SqliteIncr(table, limits, input, now).0, limits, ops[1..], now);
      } else {
        DecrKeepsTable(table, limits, input, now, |limits|);
        RunKeepsTable(SqliteDecr(table, limits, input, now), limits, ops[1..], now);
      }
    }
  }

  /** Limit `m`'s turn deletes its own row ... */
  lemma DecrDeletesOwn(table: Table, limits: seq<LimitConfig>, input: LimitInput, now: int, m: nat)
    requires TableInv(table, limits, now) && HaveDistinctIds(limits) && m < |limits| && limits[m].decrComplete
    ensures CounterKey(input, limits[m]) !in SqliteDecr(table, limits[..m + 1], input, now)
  {
    DecrKeepsTable(table, limits, input, now, m);
    RowIsDeleted(SqliteDecr(table, limits[..m], input, now), limits, input, now, m);
    SqliteDecrNext(table, limits, input, now, m);
  }

  /** ... and brings back none of another limit. */
  lemma DecrBringsNoneBack(table: Table, limits: seq<LimitConfig>, input: LimitInput, now: int, m: nat, i: nat)
    requires HaveDistinctIds(limits) && i < m < |limits|
    requires CounterKey(input, limits[i]) !in SqliteDecr(table, limits[..m], input, now)
    ensures CounterKey(input, limits[i]) !in SqliteDecr(table, limits[..m + 1], input, now)
  {
    KeysOfLimitsDiffer(input, input, limits[m], limits[i], "");
    SqliteDecrNext(table, limits, input, now, m);
  }

  lemma {:induction false} DecrDeletes(table: Table, limits: seq<LimitConfig>, input: LimitInput, now: int, m: nat,
                                       i: nat)
    requires TableInv(table, limits, now) && HaveDistinctIds(limits) && i < m <= |limits| && limits[i].decrComplete
    ensures CounterKey(input, limits[i]) !in SqliteDecr(table, limits[..m], input, now)
  {
    if i == m - 1 {
      DecrDeletesOwn(table, limits, input, now, i);
    } else {
      DecrDeletes(table, limits, input, now, m - 1, i);
      DecrBringsNoneBack(table, limits, input, now, m - 1, i);
    }
  }

  /** A table that some sequence of increments and decrements leaves behind by the time `now`. */
  ghost predicate IsReachable(table: Table, limits: seq<LimitConfig>, now: int) {
    exists ops: seq<Op>, from ::
      IsOrdered(ops, from) && LastAt(ops, from) <= now && table == TableAfter(map[], limits, ops)
  }

  lemma ReachableInv(table: Table, limits: seq<LimitConfig>, now: int)
    requires IsReachable(table, limits, now) && HaveDistinctIds(limits)
    ensures TableInv(table, limits, now)
  {
    var ops: seq<Op>, from :|
      IsOrdered(ops, from) && LastAt(ops, from) <= now && table == TableAfter(map[], limits, ops);
    RunKeepsTable(map[], limits, ops, from);
    TableLater(table, limits, LastAt(ops, from), now);
  }

  /** In every run, every decrement deletes the rows of the request in all limits under `decr_complete`. */
  lemma SqliteDecrementDeletes(table: Table, limits: seq<LimitConfig>, input: LimitInput, now: int, i: nat)
    requires IsReachable(table, limits, now) && HaveDistinctIds(limits)
    requires i < |limits| && limits[i].decrComplete
    ensures CounterKey(input, limits[i]) !in SqliteDecr(table, limits, input, now)
  {
    ReachableInv(table, limits, now);
    assert limits[..|limits|] == limits;
    DecrDeletes(table, limits, input, now, |limits|, i);
  }

  /** The counter is gone, or at its last hit. */
  predicate AtLastHit(entry: Option<Entry<nat>>, now: int) {
    Alive(entry, now).None? || entry.value.value <= 1
  }

  /**
   In every run, a decrement leaves of a counter what the memory store would leave of it if and only if
   the counter is gone or at its last hit.
   */
  lemma SqliteDecrementRightIff(table: Table, limits: seq<LimitConfig>, input: LimitInput, now: int, i: nat,
                                entry: Option<Entry<nat>>)
    requires IsReachable(table, limits, now) && HaveDistinctIds(limits)
    requires i < |limits| && limits[i].decrComplete
    requires FromRow(Lookup(table, CounterKey(input, limits[i])), now) == Alive(entry, now)
    ensures FromRow(Lookup(SqliteDecr(table, limits, input, now), CounterKey(input, limits[i])), now)
            == Alive(DecrEntry(entry, now), now)
            <==> AtLastHit(entry, now)
  {
    SqliteDecrementDeletes(table, limits, input, now, i);
  }

  // ---- The answers ----

  /** Every decrement of the sequence finds the counters of its request gone or at their last hit. */
  predicate DecrementsAtLastHit(counters: Counters, limits: seq<LimitConfig>, ops: seq<Op>)
    decreases |ops|
  {
    ops != [] ==>
      match ops[0]
      case Incr(at, input, _) => DecrementsAtLastHit(IncrAll(counters, limits, input, at).0, limits, ops[1..])
      case Decr(at, input) =>
        && (forall i :: 0 <= i < |limits| && limits[i].decrComplete ==>
              AtLastHit(Lookup(counters, CounterKey(input, limits[i])), at))
        && DecrementsAtLastHit(DecrAll(counters, limits, input, at), limits, ops[1..])
  }

  lemma PutMatchesSqlite(c: Counters, t: Table, key: string, entry: Option<Entry<nat>>, row: Option<Row>, now: int)
    requires MatchesSqlite(c, t, now) && FromRow(row, now) == Alive(entry, now)
    ensures MatchesSqlite(Put(c, key, entry), Put(t, key, row), now)
  {
    var c', t' := Put(c, key, entry), Put(t, key, row);
    forall k ensures FromRow(Lookup(t', k), now) == Alive(Lookup(c', k), now) {
      assert FromRow(Lookup(t, k), now) == Alive(Lookup(c, k), now);
    }
  }

  lemma {:induction false} DecrMatchesSqlite(counters: Counters, table: Table, limits: seq<LimitConfig>,
                                             input: LimitInput, now: int)
    requires MatchesSqlite(counters, table, now) && HaveDistinctIds(limits)
    requires forall i :: 0 <= i < |limits| && limits[i].decrComplete ==>
               AtLastHit(Lookup(counters, CounterKey(input, limits[i])), now)
    ensures MatchesSqlite(DecrAll(counters, limits, input, now), SqliteDecr(table, limits, input, now), now)
    decreases |limits|
  {
    if limits != [] {
      var last, rest := limits[|limits| - 1], limits[..|limits| - 1];
      var key := CounterKey(input, last);
      DecrMatchesSqlite(counters, table, rest, input, now);
      DecrSkips(counters, rest, input, now, input, last);
      var c, t := DecrAll(counters, rest, input, now), SqliteDecr(table, rest, input, now);
      assert FromRow(Lookup(t, key), now) == Alive(Lookup(c, key), now);
      if last.decrComplete {
        SqliteDecrementAgreesIff(Lookup(c, key), Lookup(t, key), last, now);
        PutMatchesSqlite(c, t, key, DecrEntry(Lookup(c, key), now), DecrRow(Lookup(t, key), last, now), now);
      }
    }
  }

  lemma {:induction false} SqliteRunWithDecrements(counters: Counters, table: Table, limits: seq<LimitConfig>,
                                                   ops: seq<Op>, from: int, room: nat)
    requires MatchesSqlite(counters, table, from) && IsOrdered(ops, from) && HaveDistinctIds(limits)
    requires DecrementsAtLastHit(counters, limits, ops)
    requires HasRoom(counters, room, from) && Increments(ops, |limits|) <= room <= I64_MAX
    ensures MemoryAnswers(counters, limits, ops) == SqliteAnswers(table, limits, ops)
    decreases |ops|
  {
    if ops != [] {
      var now, input := ops[0].at, ops[0].input;
      MatchLater(counters, map[], table, room, from, now);
      if ops[0].Incr? {
        IncrMatchesSqlite(counters, table, limits, input, now, room);
        IncrKeepsRoom(counters, limits, input, now, room);
        SqliteRunWithDecrements(IncrAll(counters, limits, input, now).0, SqliteIncr(table, limits, input, now).0,
                                limits, ops[1..], now, room - |limits|);
      } else {
        DecrMatchesSqlite(counters, table, limits, input, now);
        DecrKeepsRoom(counters, limits, input, now, room);
        SqliteRunWithDecrements(DecrAll(counters, limits, input, now), SqliteDecr(table, limits, input, now),
                                limits, ops[1..], now, room);
      }
    }
  }

  /** SQLite and memory give the same answers to every sequence whose decrements all find a last hit. */
  lemma SqliteAgreesAtLastHits(limits: seq<LimitConfig>, ops: seq<Op>, from: int)
    requires IsOrdered(ops, from) && HaveDistinctIds(limits) && DecrementsAtLastHit(map[], limits, ops)
    requires Increments(ops, |limits|) <= I64_MAX
    ensures MemoryAnswers(map[], limits, ops) == SqliteAnswers(map[], limits, ops)
  {
    SqliteRunWithDecrements(map[], map[], limits, ops, from, Increments(ops, |limits|));
  }

  /** Two requests, one completion half-way through the window, and a third request. */
  function ThreeRequests(input: LimitInput): seq<Op> {
    [Incr(0, input, {}), Incr(0, input, {}), Decr(30, input), Incr(30, input, {})]
  }

  /** The stores of a request's only limit, with a counter of so many hits until 60. */
  function Hits(input: LimitInput, limit: LimitConfig, n: nat): Counters {
    map[CounterKey(input, limit) := Entry(n, 60)]
  }

  function Rows(input: LimitInput, limit: LimitConfig, n: nat): Table {
    map[CounterKey(input, limit) := Row(n, 60)]
  }

  lemma FirstHit(limit: LimitConfig, input: LimitInput)
    requires limit.window == 60 && limit.maxCount == 1
    ensures IncrAll(map[], [limit], input, 0) == (Hits(input, limit, 1), true)
    ensures SqliteIncr(map[], [limit], input, 0) == (Rows(input, limit, 1), true)
  {
    OneLimit(map[], map[], limit, input, 0);
  }

  lemma SecondHit(limit: LimitConfig, input: LimitInput)
    requires limit.window == 60 && limit.maxCount == 1
    ensures IncrAll(Hits(input, limit, 1), [limit], input, 0) == (Hits(input, limit, 2), false)
    ensures SqliteIncr(Rows(input, limit, 1), [limit], input, 0) == (Rows(input, limit, 2), false)
  {
    var key := CounterKey(input, limit);
    OneLimit(Hits(input, limit, 1), Rows(input, limit, 1), limit, input, 0);
    assert IncrEntry(Some(Entry(1, 60)), limit, 0) == Entry(2, 60);
    assert IncrRow(Some(Row(1, 60)), limit, 0) == Row(2, 60);
    assert Hits(input, limit, 1)[key := Entry(2, 60)] == Hits(input, limit, 2);
    assert Rows(input, limit, 1)[key := Row(2, 60)] == Rows(input, limit, 2);
  }

  lemma OneCompletion(limit: LimitConfig, input: LimitInput)
    requires limit.window == 60 && limit.decrComplete
    ensures DecrAll(Hits(input, limit, 2), [limit], input, 30) == Hits(input, limit, 1)
    ensures SqliteDecr(Rows(input, limit, 2), [limit], input, 30) == map[]
  {
    var key := CounterKey(input, limit);
    OneLimit(Hits(input, limit, 2), Rows(input, limit, 2), limit, input, 30);
    assert Hits(input, limit, 2)[key := Entry(1, 60)] == Hits(input, limit, 1);
    assert Rows(input, limit, 2) - {key} == map[];
  }

  lemma ThirdHit(limit: LimitConfig, input: LimitInput)
    requires limit.window == 60 && limit.maxCount == 1
    ensures !IncrAll(Hits(input, limit, 1), [limit], input, 30).1 && SqliteIncr(map[], [limit], input, 30).1
  {
    OneLimit(Hits(input, limit, 1), map[], limit, input, 30);
  }

  /** The answers of both stores to the rest of a sequence. */
  predicate Answers(c: Counters, t: Table, limit: LimitConfig, ops: seq<Op>, memory: seq<bool>, sqlite: seq<bool>) {
    MemoryAnswers(c, [limit], ops) == memory && SqliteAnswers(t, [limit], ops) == sqlite
  }

  lemma AnswersIncr(c: Counters, t: Table, limit: LimitConfig, at: int, input: LimitInput, rest: seq<Op>,
                    memory: seq<bool>, sqlite: seq<bool>)
    requires Answers(IncrAll(c, [limit], input, at).0, SqliteIncr(t, [limit], input, at).0, limit, rest, memory, sqlite)
    ensures Answers(c, t, limit, [Incr(at, input, {})] + rest,
                    [IncrAll(c, [limit], input, at).1] + memory, [SqliteIncr(t, [limit], input, at).1] + sqlite)
  {
    assert ([Incr(at, input, {})] + rest)[1..] == rest;
  }

  lemma AnswersDecr(c: Counters, t: Table, limit: LimitConfig, at: int, input: LimitInput, rest: seq<Op>,
                    memory: seq<bool>, sqlite: seq<bool>)
    requires Answers(DecrAll(c, [limit], input, at), SqliteDecr(t, [limit], input, at), limit, rest, memory, sqlite)
    ensures Answers(c, t, limit, [Decr(at, input)] + rest, memory, sqlite)
  {
    assert ([Decr(at, input)] + rest)[1..] == rest;
  }

  /** With one request allowed in progress, memory refuses the third one and SQLite accepts it. */
  lemma SqliteAcceptsTooMany(limit: LimitConfig, input: LimitInput)
    requires limit.window == 60 && limit.maxCount == 1 && limit.decrComplete
    ensures MemoryAnswers(map[], [limit], ThreeRequests(input)) == [true, false, false]
    ensures SqliteAnswers(map[], [limit], ThreeRequests(input)) == [true, false, true]
  {
    FirstHit(limit, input);
    SecondHit(limit, input);
    OneCompletion(limit, input);
    ThirdHit(limit, input);
    var c, t := IncrAll(Hits(input, limit, 1), [limit], input, 30).0, SqliteIncr(map[], [limit], input, 30).0;
    assert Answers(c, t, limit, [], [], []);
    AnswersIncr(Hits(input, limit, 1), map[], limit, 30, input, [], [], []);
    var third := [Incr(30, input, {})] + [];
    AnswersDecr(Hits(input, limit, 2), Rows(input, limit, 2), limit, 30, input, third, [false], [true]);
    var second := [Decr(30, input)] + third;
    AnswersIncr(Hits(input, limit, 1), Rows(input, limit, 1), limit, 0, input, second, [false], [true]);
    var first := [Incr(0, input, {})] + second;
    AnswersIncr(map[], map[], limit, 0, input, first, [false, false], [false, true]);
    assert ThreeRequests(input) == [Incr(0, input, {})] + first;
  }

  /** One limit's turn. */
  lemma OneLimit(c: Counters, t: Table, limit: LimitConfig, input: LimitInput, now: int)
    ensures var key := CounterKey(input, limit);
            var entry, row := IncrEntry(Lookup(c, key), limit, now), IncrRow(Lookup(t, key), limit, now);
            && IncrAll(c, [limit], input, now) == (c[key := entry], entry.value <= limit.maxCount)
            && SqliteIncr(t, [limit], input, now) == (t[key := row], row.value <= limit.maxCount)
            && (limit.decrComplete ==>
                  && DecrAll(c, [limit], input, now) == Put(c, key, DecrEntry(Lookup(c, key), now))
                  && SqliteDecr(t, [limit], input, now) == Put(t, key, DecrRow(Lookup(t, key), limit, now)))
  {
    assert [limit][..0] == [];
  }
}
