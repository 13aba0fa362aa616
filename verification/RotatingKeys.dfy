/**
 The key manager that rotates three signing keys: the key set kept in storage, the handlers that
 install and rotate it, and what the handlers promise on every key set.

 A key is the identity of one PEM document. The clock is read once per handler call and passed in
 as `now`; the (at most two) keys that `RotateKeys` may generate are passed in as well.
 */
module RotatingKeys {
  import opened Wrappers
  import opened SigningAlgorithms

  type Key = nat

  datatype Expiring = Expiring(value: Key, expires: int) {
    predicate IsAlive(now: int) {
      expires > now
    }
  }

  /** The storage representation of a rotating set of three keys. */
  datatype KeySet = KeySet(
    signingAlg: SigningAlgorithm,
    current: Option<Expiring>,
    next: Option<Expiring>,
    previous: Option<Key>)
  {
    predicate IsComplete() {
      current.Some? && next.Some?
    }

    /** What both handlers assert of a complete set. */
    predicate IsOrdered() {
      IsComplete() ==> next.value.expires > current.value.expires
    }

    /** What `UpdateKeys` demands before it installs a set. */
    predicate IsUsable(now: int) {
      IsComplete() && current.value.IsAlive(now) && next.value.IsAlive(now)
    }

    /** The keys a worker with this set installed publishes, and others must find in it. */
    ghost function Keys(): set<Key> {
      (if current.Some? then {current.value.value} else {})
      + (if next.Some? then {next.value.value} else {})
      + (if previous.Some? then {previous.value} else {})
    }
  }

  function EmptyKeySet(signingAlg: SigningAlgorithm): KeySet {
    KeySet(signingAlg, None, None, None)
  }

  /** The set a worker signs and publishes with: like `KeySet`, but complete and without expiry. */
  datatype ActiveKeySet = ActiveKeySet(current: Key, next: Key, previous: Option<Key>)

  function Activate(keySet: KeySet): ActiveKeySet
    requires keySet.IsComplete()
  {
    ActiveKeySet(keySet.current.value.value, keySet.next.value.value, keySet.previous)
  }

  datatype UpdateEffect =
    | Installed(timer: int)   // the set is active, and the next rotation is due at `timer`
    | RotationRequested       // `RotateKeysLocked` is sent to the store
    | UpdateAssertFailed

  datatype RotateReply =
    | NoChange
    | Changed(keySet: KeySet)
    | RotateAssertFailed

  // ---- The rotation, without its loop ----

  function IsDead(key: Option<Expiring>, now: int): bool {
    key.None? || !key.value.IsAlive(now)
  }

  /** How many places the window slides: past `current`, and past `next` if that is dead too. */
  function Shifts(keySet: KeySet, now: int): (n: nat)
    ensures n <= 2
  {
    if !IsDead(keySet.current, now) then 0 else if !IsDead(keySet.next, now) then 1 else 2
  }

  function ValueOf(key: Option<Expiring>): Option<Key> {
    if key.Some? then Some(key.value.value) else None
  }

  /** The window after sliding; the vacated places are empty. */
  function Slide(keySet: KeySet, now: int): KeySet {
    match Shifts(keySet, now)
    case 0 => keySet
    case 1 => keySet.(current := keySet.next, next := None, previous := ValueOf(keySet.current))
    case _ => keySet.(current := None, next := None, previous := ValueOf(keySet.next))
  }

  /** Generate a key for each empty place. */
  function Fill(keySet: KeySet, now: int, keysTtl: nat, fresh0: Key, fresh1: Key): (r: KeySet)
  {
    var current := if keySet.current.Some? then keySet.current.value else Expiring(fresh0, now + keysTtl);
    var next := if keySet.next.Some? then keySet.next.value else Expiring(fresh1, current.expires + keysTtl);
    keySet.(current := Some(current), next := Some(next))
  }

  function Rotate(keySet: KeySet, now: int, keysTtl: nat, fresh0: Key, fresh1: Key): RotateReply {
    if !keySet.IsOrdered() then RotateAssertFailed
    else if Slide(keySet, now).IsComplete() then NoChange
    else Changed(Fill(Slide(keySet, now), now, keysTtl, fresh0, fresh1))
  }

  // ---- The agent ----

  class RotatingKeys {
    const keysTtl: nat
    var ed25519Keys: Option<ActiveKeySet>
    var rsaKeys: Option<ActiveKeySet>

    constructor (keysTtl: nat)
      ensures this.keysTtl == keysTtl
      ensures ed25519Keys == None && rsaKeys == None
    {
      this.keysTtl := keysTtl;
      ed25519Keys, rsaKeys := None, None;
    }

    /** The keys installed for one algorithm. */
    function Active(signingAlg: SigningAlgorithm): Option<ActiveKeySet>
      reads this
    {
      match signingAlg
      case EdDsa => ed25519Keys
      case Rs256 => rsaKeys
    }

    /** Install a usable set; anything else asks the store for a rotation and changes nothing. */
    method UpdateKeys(keySet: KeySet, now: int) returns (effect: UpdateEffect)
      modifies this
      ensures effect == RotationRequested <==>
                || keySet.current.None? || keySet.current.value.expires <= now
                || keySet.next.None? || keySet.next.value.expires <= now
      ensures effect == UpdateAssertFailed <==> keySet.IsUsable(now) && !keySet.IsOrdered()
      ensures effect.Installed? ==> keySet.IsUsable(now) && effect.timer == keySet.current.value.expires > now
      ensures forall alg :: Active(alg) ==
                            if alg == keySet.signingAlg && keySet.IsUsable(now)
                            then Some(Activate(keySet)) else old(Active(alg))
    {
      var hasCurrent := keySet.current.Some? && keySet.current.value.IsAlive(now);
      var hasNext := keySet.next.Some? && keySet.next.value.IsAlive(now);
      if !hasCurrent || !hasNext {
        return RotationRequested;
      }
      match keySet.signingAlg {
        case Rs256 => rsaKeys := Some(Activate(keySet));
        case EdDsa => ed25519Keys := Some(Activate(keySet));
      }
      var current, next := keySet.current.value, keySet.next.value;
      if !(next.expires > current.expires) {
        return UpdateAssertFailed;
      }
      effect := Installed(current.expires);
    }

    /** The rotation as the handler runs it: two turns of the same loop body, then generation. */
    method RotateKeys(keySet: KeySet, now: int, fresh0: Key, fresh1: Key) returns (reply: RotateReply)
      ensures reply == Rotate(keySet, now, keysTtl, fresh0, fresh1)
      // Both assertions of the handler are covered by the order of the expiry times.
      ensures reply == RotateAssertFailed <==>
                keySet.IsComplete() && keySet.next.value.expires <= keySet.current.value.expires
      // Neither generated key lives longer than it should.
      ensures reply.Changed? ==>
                && reply.keySet.IsComplete()
                && reply.keySet.next.value.expires == reply.keySet.current.value.expires + keysTtl
                && (reply.keySet.current == keySet.current || reply.keySet.current == keySet.next
                    || reply.keySet.current.value.expires == now + keysTtl)
    {
      var KeySet(signingAlg, current, next, previous) := keySet;
      if current.Some? && next.Some? {
        if !(next.value.expires > current.value.expires) {
          return RotateAssertFailed;
        }
      }

      var turn := 0;
      while turn < 2
        invariant 0 <= turn <= 2
        invariant turn == 0 ==> KeySet(signingAlg, current, next, previous) == keySet
        invariant turn == 1 ==>
                    KeySet(signingAlg, current, next, previous) ==
                    if Shifts(keySet, now) == 0 then keySet
                    else keySet.(current := keySet.next, next := None, previous := ValueOf(keySet.current))
        invariant turn == 2 ==> KeySet(signingAlg, current, next, previous) == Slide(keySet, now)
      {
        if IsDead(current, now) {
          previous := ValueOf(current);
          current := next;
          next := None;
        } else if next.Some? {
          if !next.value.IsAlive(now) {
            return RotateAssertFailed;
          }
          turn := 2;
          break;
        }
        turn := turn + 1;
      }

      if current.Some? && next.Some? {
        return NoChange;
      }
      if current.None? {
        current := Some(Expiring(fresh0, now + keysTtl));
      }
      if next.None? {
        next := Some(Expiring(fresh1, current.value.expires + keysTtl));
      }
      reply := Changed(KeySet(signingAlg, current, next, previous));
    }

    /** The key that `SignJws` signs with, if the algorithm has keys installed. */
    method SigningKey(signingAlg: SigningAlgorithm) returns (key: Option<Key>)
      ensures key == if Active(signingAlg).Some? then Some(Active(signingAlg).value.current) else None
    {
      match signingAlg {
        case EdDsa => key := if ed25519Keys.Some? then Some(ed25519Keys.value.current) else None;
        case Rs256 => key := if rsaKeys.Some? then Some(rsaKeys.value.current) else None;
      }
    }

    /** The keys of the JWK document: every installed key, EdDSA first. */
    method GetPublicJwks() returns (jwks: seq<Key>)
      ensures jwks == Published(ed25519Keys) + Published(rsaKeys)
    {
      jwks := [];
      if ed25519Keys.Some? {
        jwks := AppendPublicJwks(ed25519Keys.value, jwks);
      }
      if rsaKeys.Some? {
        jwks := AppendPublicJwks(rsaKeys.value, jwks);
      }
    }
  }

  function Published(keys: Option<ActiveKeySet>): seq<Key> {
    if keys.None? then [] else
      [keys.value.current, keys.value.next]
      + if keys.value.previous.Some? then [keys.value.previous.value] else []
  }

  method AppendPublicJwks(keys: ActiveKeySet, jwks: seq<Key>) returns (r: seq<Key>)
    ensures r == jwks + Published(Some(keys))
  {
    r := jwks + [keys.current];
    r := r + [keys.next];
    if keys.previous.Some? {
      r := r + [keys.previous.value];
    }
  }

  // ---- What rotation promises ----

  /**
   From every ordered set, whichever places are empty: rotation either finds both keys alive, or
   returns an ordered set with both alive. The result is one that `UpdateKeys` installs, and that
   rotating again at the same time leaves alone.
   */
  lemma RotationResult(keySet: KeySet, now: int, keysTtl: nat, fresh0: Key, fresh1: Key,
                       again0: Key, again1: Key)
    requires keysTtl > 0
    requires keySet.IsOrdered()
    ensures var reply := Rotate(keySet, now, keysTtl, fresh0, fresh1);
            && (reply == NoChange <==> keySet.IsUsable(now))
            && (reply.Changed? <==> !keySet.IsUsable(now))
            && (reply.Changed? ==>
                  && reply.keySet.signingAlg == keySet.signingAlg
                  && reply.keySet.IsOrdered()
                  && reply.keySet.IsUsable(now)
                  && Rotate(reply.keySet, now, keysTtl, again0, again1) == NoChange)
  {
  }

  /**
   A usable set stays usable until its current key expires, and rotation of a complete set that is
   not usable retires the expired keys only: every key that is still alive survives.
   */
  lemma RotationKeepsLiveKeys(keySet: KeySet, now: int, keysTtl: nat, fresh0: Key, fresh1: Key)
    requires keysTtl > 0 && keySet.IsOrdered()
    requires Rotate(keySet, now, keysTtl, fresh0, fresh1).Changed?
    ensures var r := Rotate(keySet, now, keysTtl, fresh0, fresh1).keySet;
            && (keySet.current.Some? && keySet.current.value.IsAlive(now) ==> r.current == keySet.current)
            && (keySet.next.Some? && keySet.next.value.IsAlive(now) && IsDead(keySet.current, now)
                ==> r.current == keySet.next && r.previous == ValueOf(keySet.current))
            && (keySet.next.Some? && !keySet.next.value.IsAlive(now)
                ==> r.previous == Some(keySet.next.value.value))
            && r.Keys() <= keySet.Keys() + {fresh0, fresh1}
  {
  }

  /**
   How long keys live. The next key is always generated anew, for `keysTtl` beyond the current one; the
   current key is a live one with the expiry it had, or else generated for `keysTtl` from now.
   */
  lemma RotationTimes(keySet: KeySet, now: int, keysTtl: nat, fresh0: Key, fresh1: Key)
    requires keySet.IsOrdered() && Rotate(keySet, now, keysTtl, fresh0, fresh1).Changed?
    ensures var r := Rotate(keySet, now, keysTtl, fresh0, fresh1).keySet;
            && r.IsComplete()
            && r.next == Some(Expiring(fresh1, r.current.value.expires + keysTtl))
            && r.current == (if keySet.current.Some? && keySet.current.value.IsAlive(now) then keySet.current
                             else if keySet.next.Some? && keySet.next.value.IsAlive(now) then keySet.next
                             else Some(Expiring(fresh0, now + keysTtl)))
  {
  }

  // ---- Retention across rotations ----

  /** Neighbouring expiry times in the window are at least `keysTtl` apart. */
  predicate IsSpaced(keySet: KeySet, keysTtl: nat) {
    keySet.IsComplete() ==> keySet.current.value.expires + keysTtl <= keySet.next.value.expires
  }

  /**
   Where a key may be while it must be kept: still `current` or `next`, or `previous` under a current
   key that expires at least `keysTtl` later than it did.
   */
  predicate IsKept(keySet: KeySet, key: Expiring, keysTtl: nat) {
    || keySet.current == Some(key)
    || keySet.next == Some(key)
    || (keySet.previous == Some(key.value)
        && keySet.current.Some? && key.expires + keysTtl <= keySet.current.value.expires)
  }

  /** One rotation keeps a key, unless it has been expired for `keysTtl` by then. */
  lemma RotationRetains(keySet: KeySet, key: Expiring, now: int, keysTtl: nat, fresh0: Key, fresh1: Key)
    requires keysTtl > 0 && keySet.IsComplete() && IsSpaced(keySet, keysTtl)
    requires Rotate(keySet, now, keysTtl, fresh0, fresh1).Changed?
    requires IsKept(keySet, key, keysTtl)
    ensures var r := Rotate(keySet, now, keysTtl, fresh0, fresh1).keySet;
            && r.IsComplete() && IsSpaced(r, keysTtl)
            && (IsKept(r, key, keysTtl) || key.expires + keysTtl <= now)
  {
  }

  /**
   Why an expired import is left out of the retention claim: a set holding only a current key keeps
   that key through a rotation if and only if it has not expired yet.
   */
  lemma ImportedKeyKeptIffAlive(keySet: KeySet, now: int, keysTtl: nat, fresh0: Key, fresh1: Key)
    requires keySet.current.Some? && keySet.next.None? && keySet.previous.None?
    requires fresh0 != keySet.current.value.value && fresh1 != keySet.current.value.value
    ensures var reply := Rotate(keySet, now, keysTtl, fresh0, fresh1);
            reply.Changed? && (keySet.current.value.value in reply.keySet.Keys()
                               <==> keySet.current.value.IsAlive(now))
  {
  }
}
