/**
 Locking through Redis: one key per lock, taken with `SET key token NX PX 30000` and released by a
 script that deletes the key only while it still holds the caller's token.

 Nothing here assumes that a holder finishes within its lease. A key is gone at its expiry time.
 */
module Lease {
  import opened Wrappers

  type Token = nat

  const LOCK_TTL: nat := 30000

  datatype Lock = Lock(token: Token, expires: int)

  predicate IsFree(slot: Option<Lock>, now: int) {
    slot.None? || slot.value.expires <= now
  }

  /** `SET key token NX PX 30000`. */
  function SetNx(slot: Option<Lock>, token: Token, now: int): (Option<Lock>, bool) {
    if IsFree(slot, now) then (Some(Lock(token, now + LOCK_TTL)), true) else (slot, false)
  }

  /** The unlock script; the flag says whether it deleted the key and published `UNLOCK`. */
  function UnlockScript(slot: Option<Lock>, token: Token, now: int): (Option<Lock>, bool) {
    if !IsFree(slot, now) && slot.value.token == token then (None, true) else (slot, false)
  }

  /** The lock keys of one Redis server, changed in place by its two commands. */
  class LockServer {
    var locks: map<string, Lock>

    constructor ()
      ensures locks == map[]
    {
      locks := map[];
    }

    method SetNxPx(key: string, token: Token, now: int) returns (ok: bool)
      modifies this
      ensures ok <==> IsFree(Lookup(old(locks), key), now)
      ensures ok <==> key !in old(locks) || old(locks)[key].expires <= now
      ensures locks == if ok then old(locks)[key := Lock(token, now + LOCK_TTL)] else old(locks)
      // Thirty seconds, in milliseconds.
      ensures ok ==> locks[key].expires - now == 30000
      ensures (Lookup(locks, key), ok) == SetNx(Lookup(old(locks), key), token, now)
    {
      if key in locks && locks[key].expires > now {
        ok := false;
      } else {
        locks := locks[key := Lock(token, now + LOCK_TTL)];
        ok := true;
      }
    }

    method Unlock(key: string, token: Token, now: int) returns (deleted: bool)
      modifies this
      ensures deleted <==> key in old(locks) && old(locks)[key].expires > now && old(locks)[key].token == token
      ensures locks == if deleted then old(locks) - {key} else old(locks)
      ensures (Lookup(locks, key), deleted) == UnlockScript(Lookup(old(locks), key), token, now)
    {
      if key in locks && locks[key].expires > now && locks[key].token == token {
        locks := locks - {key};
        deleted := true;
      } else {
        deleted := false;
      }
    }
  }

  // ---- Any number of clients, any interleaving ----

  /** A lease handed to a client by a successful attempt. */
  datatype Grant = Grant(key: string, expires: int)

  /**
   `waiting` are requests still retrying; `held` are guards not yet dropped; `dropped` are guards
   whose unlock script has been spawned but has not run.
   */
  datatype World = World(
    now: int,
    locks: map<string, Lock>,
    waiting: map<Token, string>,
    held: map<Token, Grant>,
    dropped: map<Token, Grant>,
    nextToken: Token)

  datatype Action =
    | Tick(delta: nat)
    | Request(key: string)     // a `lock` call draws its unique token
    | TryLock(token: Token)
    | Drop(token: Token)
    | RunUnlock(token: Token)

  function Step(w: World, a: Action): Option<World> {
    match a
    case Tick(delta) => Some(w.(now := w.now + delta))
    case Request(key) => Some(w.(waiting := w.waiting[w.nextToken := key], nextToken := w.nextToken + 1))
    case TryLock(token) =>
      if token !in w.waiting then None else
      var key := w.waiting[token];
      var (slot, ok) := SetNx(Lookup(w.locks, key), token, w.now);
      if !ok then Some(w) else
      Some(w.(locks := Put(w.locks, key, slot),
              waiting := w.waiting - {token},
              held := w.held[token := Grant(key, w.now + LOCK_TTL)]))
    case Drop(token) =>
      if token !in w.held then None else
      Some(w.(held := w.held - {token}, dropped := w.dropped[token := w.held[token]]))
    case RunUnlock(token) =>
      if token !in w.dropped then None else
      var key := w.dropped[token].key;
      var (slot, _) := UnlockScript(Lookup(w.locks, key), token, w.now);
      Some(w.(locks := Put(w.locks, key, slot), dropped := w.dropped - {token}))
  }

  predicate IsInit(w: World) {
    w.locks == map[] && w.waiting == map[] && w.held == map[] && w.dropped == map[]
  }

  /** A run: `worlds[0]` is initial and each action leads to the next world. */
  predicate IsRun(worlds: seq<World>, actions: seq<Action>) {
    && |worlds| == |actions| + 1
    && IsInit(worlds[0])
    && forall i {:trigger actions[i]} :: 0 <= i < |actions| ==> Step(worlds[i], actions[i]) == Some(worlds[i + 1])
  }

  /** The lease a client got and has not given back: its guard, or the unlock script of that guard. */
  function LeaseOf(w: World, token: Token): Option<Grant> {
    if token in w.held then Some(w.held[token]) else Lookup(w.dropped, token)
  }

  /** The client's lease has not run out either. */
  predicate HoldsLease(w: World, token: Token, key: string) {
    var lease := LeaseOf(w, token);
    lease.Some? && lease.value.key == key && lease.value.expires > w.now
  }

  /** Every running lease is backed by the lock key, with its own token and expiry in it. */
  ghost predicate Inv(w: World) {
    && (forall t :: t in w.waiting || t in w.held || t in w.dropped ==> t < w.nextToken)
    && (forall t :: t in w.waiting ==> t !in w.held && t !in w.dropped)
    && (forall t :: t in w.held ==> t !in w.dropped)
    && (forall t, key :: HoldsLease(w, t, key) ==>
          Lookup(w.locks, key) == Some(Lock(t, LeaseOf(w, t).value.expires)))
  }

  lemma StepKeepsInv(w: World, a: Action, w': World)
    requires Inv(w) && Step(w, a) == Some(w')
    ensures Inv(w')
  {
    forall t, key | HoldsLease(w', t, key)
      ensures Lookup(w'.locks, key) == Some(Lock(t, LeaseOf(w', t).value.expires))
    {
      match a {
        case Tick(delta) => assert HoldsLease(w, t, key);
        case Request(k) => assert HoldsLease(w, t, key);
        case TryLock(token) => assert t == token || HoldsLease(w, t, key);
        case Drop(token) => assert HoldsLease(w, t, key);
        case RunUnlock(token) => assert t != token && HoldsLease(w, t, key);
      }
    }
  }

  lemma {:induction false} RunKeepsInv(worlds: seq<World>, actions: seq<Action>, i: nat)
    requires IsRun(worlds, actions) && i < |worlds|
    ensures Inv(worlds[i])
  {
    if i > 0 {
      RunKeepsInv(worlds, actions, i - 1);
      StepKeepsInv(worlds[i - 1], actions[i - 1], worlds[i]);
    }
  }

  /** In every run, at every moment, at most one client holds an unexpired lease on a lock key. */
  lemma MutualExclusion(worlds: seq<World>, actions: seq<Action>, i: nat, t: Token, u: Token, key: string)
    requires IsRun(worlds, actions) && i < |worlds|
    requires HoldsLease(worlds[i], t, key) && HoldsLease(worlds[i], u, key)
    ensures t == u
  {
    RunKeepsInv(worlds, actions, i);
  }

  /**
   A lease ends only by its own unlock script or by time: whatever step a run takes, an unexpired
   lease of `t` is still there and still backed by the lock key, unless `t` itself ran its unlock
   script or the clock reached the lease's end. In particular a late release frees nobody else.
   */
  lemma LeaseEndsOnlyByItself(worlds: seq<World>, actions: seq<Action>, i: nat, t: Token, key: string)
    requires IsRun(worlds, actions) && i < |actions|
    requires HoldsLease(worlds[i], t, key)
    ensures || (HoldsLease(worlds[i + 1], t, key)
                && Lookup(worlds[i + 1].locks, key) == Lookup(worlds[i].locks, key)
                && Lookup(worlds[i].locks, key).Some?
                && Lookup(worlds[i].locks, key).value.token == t)
            || actions[i] == RunUnlock(t)
            || (actions[i].Tick? && LeaseOf(worlds[i], t).value.expires <= worlds[i + 1].now)
  {
    RunKeepsInv(worlds, actions, i);
    RunKeepsInv(worlds, actions, i + 1);
  }
}
