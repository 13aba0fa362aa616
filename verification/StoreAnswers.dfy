/**
 What the memory store answers, told by the messages alone: for sessions, the last save or delete
 decides, and for cached URLs, the last fetch that was made.
 */
module StoreAnswers {
  import opened Wrappers
  import opened MemoryStore
  import opened StoreRun
  import opened RateBound

  lemma {:induction false} FinalAppend(s: Store, config: Config, trace: seq<Timed>, t: Timed)
    ensures Final(s, config, trace + [t]) == Handle(Final(s, config, trace), config, t.message, t.at).0
    decreases |trace|
  {
    if trace == [] {
      assert trace + [t] == [t] && [t][1..] == [];
    } else {
      assert (trace + [t])[0] == trace[0] && (trace + [t])[1..] == trace[1..] + [t];
      FinalAppend(Handle(s, config, trace[0].message, trace[0].at).0, config, trace[1..], t);
    }
  }

  lemma {:induction false} TimelyPrefix(trace: seq<Timed>, from: int)
    requires trace != [] && IsTimely(trace, from)
    ensures IsTimely(trace[..|trace| - 1], from)
    ensures EndsAt(trace[..|trace| - 1], from) <= trace[|trace| - 1].at
    decreases |trace|
  {
    var prefix := trace[..|trace| - 1];
    if |trace| > 1 {
      assert trace[1..][..|trace| - 2] == prefix[1..];
      assert trace[1..][|trace| - 2] == trace[|trace| - 1];
      TimelyPrefix(trace[1..], DoneAt(trace[0]));
      assert EndsAt(prefix, from) == EndsAt(prefix[1..], DoneAt(trace[0]));
    }
  }

  // ---- Sessions ----

  predicate Touches(t: Timed, id: string) {
    (t.message.SaveSession? && t.message.id == id) || (t.message.DeleteSession? && t.message.id == id)
  }

  /** The last message that saves or deletes the session. */
  function LastTouch(trace: seq<Timed>, id: string): Option<Timed> {
    if trace == [] then None
    else if Touches(trace[|trace| - 1], id) then Some(trace[|trace| - 1])
    else LastTouch(trace[..|trace| - 1], id)
  }

  /** The session that is there at `now`, by that message: a save whose time has not run out. */
  function Stored(touch: Option<Timed>, expireSessions: nat, now: int): Option<Session> {
    if touch.Some? && touch.value.message.SaveSession? && now < touch.value.at + expireSessions
    then Some(touch.value.message.data) else None
  }

  function Loadable(s: Store, id: string, now: int): Option<Session> {
    var entry := Alive(Lookup(s.sessions, id), now);
    if entry.Some? then Some(entry.value.value) else None
  }

  lemma UntouchedSession(s: Store, config: Config, t: Timed, id: string, now: int)
    requires !Touches(t, id) && t.at <= now
    ensures Loadable(Handle(s, config, t.message, t.at).0, id, now) == Loadable(s, id, now)
  {
  }

  lemma TouchedSession(s: Store, config: Config, t: Timed, id: string, now: int)
    requires Touches(t, id)
    ensures Loadable(Handle(s, config, t.message, t.at).0, id, now) == Stored(Some(t), config.expireSessions, now)
  {
  }

  lemma {:induction false} LoadableAfter(config: Config, trace: seq<Timed>, from: int, id: string, now: int)
    requires IsTimely(trace, from) && EndsAt(trace, from) <= now
    ensures Loadable(Final(Store(map[], map[], map[]), config, trace), id, now)
         == Stored(LastTouch(trace, id), config.expireSessions, now)
    decreases |trace|
  {
    if trace != [] {
      var prefix, t := trace[..|trace| - 1], trace[|trace| - 1];
      var before := Final(Store(map[], map[], map[]), config, prefix);
      TimelyPrefix(trace, from);
      FinalAppend(Store(map[], map[], map[]), config, prefix, t);
      assert prefix + [t] == trace;
      if Touches(t, id) {
        TouchedSession(before, config, t, id, now);
      } else {
        LoadableAfter(config, prefix, from, id, now);
        UntouchedSession(before, config, t, id, now);
      }
    }
  }

  /**
   After every timed sequence of messages, with any other traffic and collections among them, a session
   is answered if and only if the last message that saved or deleted it was a save, less than
   `expire_sessions` ago, and it is the session that was saved then.
   */
  lemma GetSessionAnswers(config: Config, trace: seq<Timed>, from: int, id: string, now: int)
    requires IsTimely(trace, from) && EndsAt(trace, from) <= now
    ensures var s := Final(Store(map[], map[], map[]), config, trace);
            Handle(s, config, Message.GetSession(id), now)
            == (s, Loaded(Stored(LastTouch(trace, id), config.expireSessions, now)))
  {
    LoadableAfter(config, trace, from, id, now);
  }

  // ---- Cached URLs ----

  /** The outcome of a fetch that was made, and when it ended. */
  datatype Fill = Fill(endedAt: int, result: FetchResult)

  /** Data lives for the longer of the two times: as long as either of them runs. */
  predicate Serves(fill: Option<Fill>, expireCache: nat, now: int) {
    fill.Some? && (now < fill.value.endedAt + expireCache || now < fill.value.endedAt + fill.value.result.maxAge)
  }

  /** The last fetch of the URL that was made and succeeded; none is made while an earlier one serves. */
  function LastFill(trace: seq<Timed>, url: string, expireCache: nat): Option<Fill> {
    if trace == [] then None
    else
      var before, t := LastFill(trace[..|trace| - 1], url, expireCache), trace[|trace| - 1];
      if t.message.FetchUrlCached? && t.message.url == url && t.message.outcome.Ok?
         && !Serves(before, expireCache, t.at)
      then Some(Fill(t.at + t.message.took, t.message.outcome.value))
      else before
  }

  function Served(fill: Option<Fill>, expireCache: nat, now: int): Option<string> {
    if Serves(fill, expireCache, now) then Some(fill.value.result.data) else None
  }

  function Hits(s: Store, url: string, now: int): Option<string> { Hit(Slot(s.cache, url), now) }

  lemma OtherMessage(s: Store, config: Config, t: Timed, url: string, now: int)
    requires !(t.message.FetchUrlCached? && t.message.url == url) && t.at <= now
    ensures Hits(Handle(s, config, t.message, t.at).0, url, now) == Hits(s, url, now)
  {
  }

  lemma FetchMessage(s: Store, config: Config, t: Timed, url: string, now: int, before: Option<Fill>)
    requires t.message.FetchUrlCached? && t.message.url == url && t.at <= now
    requires Hits(s, url, t.at) == Served(before, config.expireCache, t.at)
    requires Hits(s, url, now) == Served(before, config.expireCache, now)
    ensures Hits(Handle(s, config, t.message, t.at).0, url, now)
         == if !Serves(before, config.expireCache, t.at) && t.message.outcome.Ok?
            then Served(Some(Fill(t.at + t.message.took, t.message.outcome.value)), config.expireCache, now)
            else Served(before, config.expireCache, now)
  {
  }

  lemma {:induction false} HitsAfter(config: Config, trace: seq<Timed>, from: int, url: string, now: int)
    requires IsTimely(trace, from) && EndsAt(trace, from) <= now
    ensures Hits(Final(Store(map[], map[], map[]), config, trace), url, now)
         == Served(LastFill(trace, url, config.expireCache), config.expireCache, now)
    decreases |trace|
  {
    if trace != [] {
      var prefix, t := trace[..|trace| - 1], trace[|trace| - 1];
      var before := Final(Store(map[], map[], map[]), config, prefix);
      TimelyPrefix(trace, from);
      FinalAppend(Store(map[], map[], map[]), config, prefix, t);
      assert prefix + [t] == trace;
      HitsAfter(config, prefix, from, url, now);
      if t.message.FetchUrlCached? && t.message.url == url {
        HitsAfter(config, prefix, from, url, t.at);
        FetchMessage(before, config, t, url, now, LastFill(prefix, url, config.expireCache));
      } else {
        OtherMessage(before, config, t, url, now);
      }
    }
  }

  /**
   After every timed sequence of messages, a request for a URL is answered with the data of the last
   fetch while either of its two times runs, and without a fetch of its own: its outcome does not
   matter. At or after both times, or if there is no such fetch, its own fetch is the answer.
   */
  lemma FetchAnswers(config: Config, trace: seq<Timed>, from: int, url: string, outcome: Result<FetchResult, string>,
                     took: nat, now: int)
    requires IsTimely(trace, from) && EndsAt(trace, from) <= now
    ensures var s, fill := Final(Store(map[], map[], map[]), config, trace), LastFill(trace, url, config.expireCache);
            Handle(s, config, Message.FetchUrlCached(url, outcome, took), now).1
            == Fetched(if Serves(fill, config.expireCache, now) then Ok(fill.value.result.data)
                       else if outcome.Ok? then Ok(outcome.value.data)
                       else Err(outcome.error))
  {
    HitsAfter(config, trace, from, url, now);
  }

  // ---- Collections ----

  /** A collection leaves nothing behind that has expired, and no slot that serves nothing. */
  lemma GcLeavesOnlyTheLive(s: Store, config: Config, now: int)
    ensures var after := Handle(s, config, Message.Gc, now).0;
            && (forall id :: id in after.sessions <==> id in s.sessions && s.sessions[id].expires > now)
            && (forall k :: k in after.counters <==> k in s.counters && s.counters[k].expires > now)
            && (forall u :: u in after.cache <==>
                  u in s.cache && s.cache[u].Some? && s.cache[u].value.expires > now)
            && (forall id :: id in after.sessions ==> after.sessions[id] == s.sessions[id])
            && (forall k :: k in after.counters ==> after.counters[k] == s.counters[k])
            && (forall u :: u in after.cache ==> after.cache[u] == s.cache[u])
  {
  }
}
