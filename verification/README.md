# Portier broker: verified model

This project models the stateful core of the Portier broker, an identity provider that logs users in
by email address, and proves what that core promises. It covers four areas.

**Rotating signing keys across workers.** `RotatingKeys` is the key manager agent: a window of three
keys that slides when keys expire, with the handlers that install and rotate a set. `Lease` is the
Redis lock under which workers rotate, for any number of clients and lock keys, and without assuming
that a holder finishes within its lease. `KeyProtocol` puts both into a system of steps: one stored key
set, the lock, tasks of any number of workers, and a queue of notifications for each. Every
interleaving of its steps is a run. `KeyInvariant` holds what each step keeps, `KeyTheorems` the safety
results over runs, `KeyProgress` that no update is missed and that every worker can catch up,
`KeyFreshness` that generated keys stay distinct, and `KeyLock` that a lock is always given back.

**The Redis pub/sub connection.** `PubSub` is the connection loop with its map of subscriptions, as a
class, and a network around it: the command pipe, the server's subscription set, the event pipe, and
receivers that come and go. `PubSubInvariant` and `PubSubTheorems` prove the subscription guarantee,
also when a channel is unsubscribed and asked for again while both commands are still under way.
`PubSubAnswers` proves that every call is answered, and which channels the interval drops.

**The stores.** `MemoryStore` is the in-memory agent as a class, specified by one function from state
and message to state and reply. `StoreRun`, `GarbageCollection` and `RateBound` reason about timed
sequences of messages; `SingleFlight` takes the URL cache apart into concurrent tasks that share
slots. `LimitStores` has the rate limiters of the Redis and SQLite stores, and `StoreRefinement`
relates all three; `SqliteDecrements` is about the one statement in which SQLite differs.
`StoreAnswers` says what a session or cache request is answered from the trace of messages alone, and
`RateAcceptance` which requests a limit must let through. `RequestCount` follows one request from its
test to its completion. `EmailAddress` and `LimitKey` are about the string under which a limit counts.

**Codecs and sessions.** `Base64` is RFC 4648, sections 4 and 5. `Pem` is the key file reader and
writer, `PemTheorems` what the reader makes of a document. `Jws` signs and verifies tokens
(`SigningAlgorithms` names the algorithms), `JwsTheorems` says what is accepted, and `Claims` is about
what the tokens say. `Session` is the request context and the handlers for /auth, /callback and /confirm
as steps between awaits, `SessionInvariant`, `SessionTheorems`, `SessionSteps` and `SessionCounts` what
holds in every run of them.

Three conventions hold throughout. The clock is read once per handler call and handed in as `now`.
Whatever comes from outside the modelled code (fresh identifiers, results of a fetch, signatures,
JSON text, the serialized form of a URL) is a parameter, with any assumption on it stated where it
is used. A class method is proved against a function of the old state, and the theorems are about that
function.

## Findings

The model follows the code where the code and its intention differ.

- `parse_key_pairs` never clears its base64 buffer, so each block is decoded together with all blocks
  before it. `PemTheorems.ParseIsBlocks` states this for every document, `BundleReadBackIff` gives the
  exact condition under which a series of documents is read back, and `TwoKeysAreRefused` shows that
  with key constructors that refuse trailing bytes a file of two keys is always an error.
- SQLite's `DecrLimits` compares the stored expiry with a window that starts now. In every run it
  deletes the row, so it does what the memory store does exactly on counters that are gone or at their
  last hit (`SqliteDecrementDeletes`, `SqliteDecrementRightIff`), the stores agree on runs whose
  decrements all find such counters (`SqliteAgreesAtLastHits`), and on others they may differ
  (`SqliteAcceptsTooMany`).
- A session that several tasks load before the first of them deletes it is completed, and its request
  counted down, by each of them. `DecrementsAreBounded` gives the bound, and
  `AnyNumberOfDecrements` reaches it.
- An imported key that has already expired, in a set with no `next`, is lost by the first rotation
  instead of being kept as `previous` (`ImportedKeyKeptIffAlive`).
- If discovery times out after the OpenID Connect bridge has taken the session data, the email loop
  finds nothing to save and answers with an internal error, which its comment rules out (`TimedOutClaim` is such a run,
  `FallbackIsRefusedIff` the exact condition); the session itself stays sound.

## Model

| member | source | states |
|---|---|---|
| `RotatingKeys.RotatingKeys.UpdateKeys` | `src/agents/key_manager/rotating.rs:227-279` | a set with both keys alive becomes the active set of its algorithm alone; any other requests a rotation and changes nothing; the assertion fails exactly when expiry times are out of order |
| `RotatingKeys.RotatingKeys.RotateKeys` | `src/agents/key_manager/rotating.rs:281-333` | the two-turn loop and key generation compute the window slid past every expired key and filled up; the next key expires `keys_ttl` after the current one, which is a live key or one made for `keys_ttl` from now; its two assertions fail exactly on complete sets whose expiry times are out of order |
| `RotatingKeys.RotatingKeys.SigningKey` | `src/agents/key_manager/rotating.rs:335-350` | signing uses the current key of the asked algorithm, or none |
| `RotatingKeys.RotatingKeys.GetPublicJwks` | `src/agents/key_manager/rotating.rs:352-363` | the JWK document lists the keys of both algorithms, in order |
| `RotatingKeys.AppendPublicJwks` | `src/agents/key_manager/rotating.rs:130-136` | current, next and any previous key are appended |
| `RotatingKeys.RotationResult` | `src/agents/key_manager/rotating.rs:294-331` | from every ordered set: nothing to do iff both keys are alive, else a set in order with both alive that a second rotation leaves alone |
| `RotatingKeys.RotationTimes` | `src/agents/key_manager/rotating.rs:306-324` | the next key is always new, `keys_ttl` beyond the current one; the current key is a live one with its own expiry, or new for `keys_ttl` from now |
| `RotatingKeys.RotationKeepsLiveKeys` | `src/agents/key_manager/rotating.rs:295-304` | a rotation retires expired keys only, and the newest retired key becomes previous |
| `RotatingKeys.RotationRetains` | `src/agents/key_manager/rotating.rs:294-324` | one rotation keeps a key until `keys_ttl` after its expiry |
| `RotatingKeys.ImportedKeyKeptIffAlive` | `src/agents/key_manager/rotating.rs:295-324` | a current-only set keeps its key through a rotation iff that key is alive |
| `Lease.LockServer.SetNxPx` | `src/utils/redis/locking.rs:95-110` | the key is set, with its lease, exactly when free |
| `Lease.LockServer.Unlock` | `src/utils/redis/locking.rs:53-63` | the script deletes the key exactly while it holds the caller's token |
| `Lease.MutualExclusion` | `src/utils/redis/locking.rs:78-121` | in every run at most one client holds an unexpired lease on a lock key |
| `Lease.LeaseEndsOnlyByItself` | `src/utils/redis/locking.rs:19-34` | a running lease ends only by its own release or by time; a stale release frees no one else's lock |
| `KeyInvariant.RotationKeepsShape` | `src/agents/key_manager/rotating.rs:306-331` | rotation replaces only a set that is no longer usable, and keeps order and spacing of expiry times |
| `KeyInvariant.RunKeepsInv` | `src/agents/store/redis.rs:281-394` | in every run each set in flight or installed is an exact copy of a save, the lock owner's is the latest, and each save is the rotation of the one before |
| `KeyTheorems.SupersededIsUnusable` | `src/agents/store/redis.rs:310-329` | a saved set that was superseded is one `UpdateKeys` rejects |
| `KeyTheorems.InstallsOnlyTheLatest` | `src/agents/store/redis.rs:380-394` | however late it arrives, a set is installed only if it is the stored one |
| `KeyTheorems.InstallationNeverGoesBack` | `src/agents/store/redis.rs:310-329` | no worker replaces an installed set by an older one |
| `KeyTheorems.WorkerAgreement` | `src/agents/key_manager/rotating.rs:227-279` | all workers whose signing key is alive have the stored set installed |
| `KeyTheorems.OneSaveBehind` | `src/agents/key_manager/rotating.rs:130-136` | a worker one single-slide save behind and an up-to-date one each publish the key the other signs with |
| `KeyTheorems.NoLostRotation` | `src/agents/store/redis.rs:310-329` | every save within its lease stores the rotation of the set that was stored at that moment |
| `KeyTheorems.NoAssertionFails` | `src/agents/key_manager/rotating.rs:262-301` | no assertion of the two handlers can fail in a run |
| `KeyTheorems.KeyRetention` | `src/agents/key_manager/rotating.rs:294-331` | once current or next in a saved set, a key is in every later set until `keys_ttl` after its expiry |
| `KeyTheorems.KeyLife` | `src/agents/key_manager/rotating.rs:294-324` | in every save after the first, the next key expires `keys_ttl` after the current one, and the current key no later than `keys_ttl` after the rotation, except an imported key with which the run began; nothing is rotated before its time |
| `KeyTheorems.TokenStaysVerifiable` | `src/crypto.rs:242-251` | with `token_ttl <= keys_ttl`, a token signed by a live key has its key stored for its whole life, and published by every worker whose installed set is as new as the signer's was: the signer itself, every worker with a live key, and also workers whose keys have expired |
| `KeyTheorems.PublishedKeys` | `src/agents/key_manager/rotating.rs:98-136` | a worker publishes exactly the keys of its installed set |
| `KeyProgress.NoMissedUpdate` | `src/agents/store/redis.rs:287-306` | a subscribed worker that lacks the stored set has a first fetch, notification, fetch, update or due rotation outstanding |
| `KeyProgress.EveryWorkerCanCatchUp` | `src/agents/store/redis.rs:366-394` | from every reachable state there is a continuation that installs the stored set on a given subscribed worker, without its timer while the stored set is usable |
| `KeyFreshness.PublishedKeysAreDistinct` | `src/agents/key_manager/rotating.rs:306-331` | the keys a worker publishes are pairwise different |
| `KeyLock.LockIsGivenBack` | `src/utils/redis/locking.rs:19-34` | in every run, late saves included, a held lock belongs to a task between its lock and its drop, or to one whose unlock script is under way and frees it |
| `PubSub.ConnLoop.HandleCommand` | `src/utils/redis/pubsub.rs:116-137` | reply at once, join the pending replies, or send SUBSCRIBE |
| `PubSub.ConnLoop.CollectIdle` | `src/utils/redis/pubsub.rs:145-154` | exactly the confirmed channels without receivers, each once |
| `PubSub.ConnLoop.HandleInterval` | `src/utils/redis/pubsub.rs:143-169` | idle channels are dropped and unsubscribed in one command, or a PING is sent |
| `PubSub.ConnLoop.HandleRead` | `src/utils/redis/pubsub.rs:183-207` | messages are forwarded, a confirmation answers all pending replies |
| `PubSubInvariant.RunKeepsInv` | `src/utils/redis/pubsub.rs:81-211` | for every channel the client's entry, the pipes and the server's set agree in every run |
| `PubSubTheorems.PendingIffOneInFlight` | `src/utils/redis/pubsub.rs:116-137` | a channel has replies pending iff exactly one SUBSCRIBE or confirmation for it is in flight |
| `PubSubTheorems.LiveReceiverMissesNothing` | `src/utils/redis/pubsub.rs:143-193` | a live receiver's channel is subscribed, and what it got and has coming is all that was published since its start, in order |
| `PubSubTheorems.SubscribedBeforeReturn` | `src/utils/redis/pubsub.rs:226-238` | `subscribe` returns only after the server has subscribed the channel |
| `PubSubTheorems.EveryLaterPublishArrives` | `src/utils/redis/pubsub.rs:184-202` | every publish after `subscribe` returned reaches the receiver in order while it lives |
| `PubSubAnswers.AnsweredOrWaiting` | `src/utils/redis/pubsub.rs:116-137` | in every run, each `subscribe` call has been handed a receiver of its channel, or waits while one SUBSCRIBE or confirmation is under way |
| `PubSubAnswers.AskAnswersIff` | `src/utils/redis/pubsub.rs:116-137` | a call is answered in its own step iff its channel is confirmed; otherwise it waits |
| `PubSubAnswers.ConfirmationAnswersAll` | `src/utils/redis/pubsub.rs:193-199` | reading a confirmation hands a receiver to exactly the calls for that channel that have none yet |
| `PubSubAnswers.QuietMeansAnswered` | `src/utils/redis/pubsub.rs:81-211` | with both pipes empty every call is answered, and the server has subscribed exactly what the client tracks |
| `PubSubAnswers.IntervalDropsUnused` | `src/utils/redis/pubsub.rs:143-169` | the interval drops a channel iff nobody waits for it or has a live receiver, and sends one UNSUBSCRIBE of all of them, or a PING |
| `EmailAddress.FromStr` | `src/email_address.rs:53-72` | parsing succeeds iff the local part before the last `@` is not empty and what follows is a proper ASCII domain, no raw address, and then keeps both; no `@` is its own error |
| `EmailAddress.SeparatorIsLastAt` | `src/email_address.rs:84-116` | the separator is the last `@`; the domain holds neither `@` nor `:` |
| `EmailAddress.NoUrlDelimiters` | `src/email_address.rs:5-10` | a domain is not empty and has none of the code points that are forbidden in the host of a URL |
| `LimitKey.BuildKey` | `src/config/limits.rs:123-142` | pushing parts onto a string builds the key |
| `LimitKey.KeyIffSameFields` | `src/config/limits.rs:123-142` | two requests share a limit's key iff they agree on every selected field |
| `LimitKey.KeysOfLimitsDiffer` | `src/config/mod.rs:507-510` | limits with different numbers never share a key |
| `LimitKey.PrefixIsNamespace` | `src/config/limits.rs:123-124` | the prefix is only put in front of the key |
| `LimitKey.KeyLooksLike` | `src/config/limits.rs:123-142` | the order of prefix, number, address of the client, email address, domain and origin, each behind a bar |
| `LimitKey.DecimalIsBaseTen` | `src/config/limits.rs:123-124` | the number is written in decimal digits |
| `MemoryStore.MemoryStore.SaveSession` | `src/agents/store/memory.rs:147-155` | the store's new state is that of the message's specification |
| `MemoryStore.MemoryStore.GetSession` | `src/agents/store/memory.rs:157-166` | only a live session is returned, nothing changes |
| `MemoryStore.MemoryStore.DeleteSession` | `src/agents/store/memory.rs:168-173` | the session is removed, at any time |
| `MemoryStore.MemoryStore.FetchUrlCached` | `src/agents/store/memory.rs:175-193` | a live slot is served; otherwise the fetched data fills it for the longer of `expire_cache` and `max_age`; an error fills nothing |
| `MemoryStore.MemoryStore.IncrCounter` | `src/agents/store/memory.rs:204-219` | one hit restarts an expired counter or counts up to saturation |
| `MemoryStore.MemoryStore.IncrAndTestLimits` | `src/agents/store/memory.rs:195-224` | every limit is counted, and the request passes iff none is over its bound |
| `MemoryStore.MemoryStore.DecrCounter` | `src/agents/store/memory.rs:233-240` | an expired counter, or one at its last hit, is removed |
| `MemoryStore.MemoryStore.DecrLimits` | `src/agents/store/memory.rs:226-245` | exactly the limits under `decr_complete` are counted down |
| `MemoryStore.MemoryStore.Gc` | `src/agents/store/memory.rs:114-145` | what has expired is removed, and nothing else |
| `StoreAnswers.GetSessionAnswers` | `src/agents/store/memory.rs:147-173` | after every timed sequence of messages, a session is answered iff the last message that saved or deleted it was a save less than `expire_sessions` ago, with what that save stored |
| `StoreAnswers.FetchAnswers` | `src/agents/store/memory.rs:175-193` | after every timed sequence of messages, the data of the last fetch is answered, without a fetch, while `expire_cache` or its `max-age` runs; at or after both a new fetch is the answer |
| `StoreAnswers.GcLeavesOnlyTheLive` | `src/agents/store/memory.rs:114-145` | no expired session or counter and no slot that serves nothing is left behind |
| `StoreRun.IncrAt` | `src/agents/store/memory.rs:198-222` | testing all limits hits each key's counter once or not at all, and passes only within its bound |
| `StoreRun.DecrAt` | `src/agents/store/memory.rs:229-243` | a decrement changes exactly the counters of its own keys |
| `StoreRun.CounterStep` | `src/agents/store/memory.rs:114-245` | every message acts on one live counter as a hit, a decrement or not at all |
| `GarbageCollection.GcIsTransparent` | `src/agents/store/memory.rs:114-245` | collections inserted anywhere into any timed sequence of messages change no reply |
| `RateBound.FixedWindowBound` | `src/agents/store/memory.rs:195-224` | at most `2 * max_count` acceptances per key in any interval of one window |
| `RateBound.ExtendedWindowBound` | `src/agents/store/memory.rs:195-224` | at most `max_count` with `extend_window` |
| `RateBound.InProgressBound` | `src/agents/store/memory.rs:201-241` | a live counter equals hits minus decrements, is at least 1, and bounds the requests in progress |
| `RateAcceptance.PassesIff` | `src/agents/store/memory.rs:195-224` | a request passes iff, with this hit, no limit's counter is over its `max_count` |
| `RateAcceptance.FewRecentHitsPass` | `src/agents/store/memory.rs:195-224` | after every timed sequence of messages, a request passes if each limit had fewer than `max_count` hits of its key within the last window, or, with `extend_window`, none |
| `LimitStores.RedisLimits.InvokeIncr` | `src/agents/store/redis.rs:92-100` | the increment script sets the expiry on the first hit and on extended windows |
| `LimitStores.RedisLimits.InvokeDecr` | `src/agents/store/redis.rs:102-109` | the decrement script deletes at zero or below |
| `LimitStores.RedisLimits.IncrAndTestLimits` | `src/agents/store/redis.rs:215-246` | the reply is the error of a script that fails, behind which others may be abandoned, else the conjunction of the verdicts of all |
| `LimitStores.RedisLimits.DecrLimits` | `src/agents/store/redis.rs:248-279` | the script runs for the limits under `decr_complete` |
| `LimitStores.SqliteLimits.Transact` | `src/agents/store/rusqlite.rs:313-339` | delete, upsert and select make one hit on the row |
| `LimitStores.SqliteLimits.IncrAndTestLimits` | `src/agents/store/rusqlite.rs:306-343` | one transaction per limit, and the conjunction of the verdicts |
| `LimitStores.SqliteLimits.TransactDecr` | `src/agents/store/rusqlite.rs:355-363` | delete and update, with the expiry compared as written |
| `LimitStores.SqliteLimits.DecrLimits` | `src/agents/store/rusqlite.rs:345-368` | one transaction per limit under `decr_complete` |
| `StoreRefinement.RedisAgreesWithMemory` | `src/agents/store/redis.rs:215-279` | Redis and memory give the same answers to every interleaving of increments and decrements |
| `StoreRefinement.SqliteAgreesWithMemory` | `src/agents/store/rusqlite.rs:306-343` | SQLite and memory give the same answers to every sequence of increments |
| `StoreRefinement.SqliteDecrementAgreesIff` | `src/agents/store/rusqlite.rs:345-368` | the exact condition on one counter and its row under which SQLite's decrement does what the memory store's does |
| `SqliteDecrements.SqliteDecrementDeletes` | `src/agents/store/rusqlite.rs:345-368` | in every run, a decrement deletes the rows of its request in all limits under `decr_complete` |
| `SqliteDecrements.SqliteDecrementRightIff` | `src/agents/store/rusqlite.rs:345-368` | in every run, a decrement leaves what the memory store leaves iff the counter is gone or at its last hit |
| `SqliteDecrements.SqliteAgreesAtLastHits` | `src/agents/store/rusqlite.rs:306-368` | SQLite and memory give the same answers to every interleaving whose decrements all find counters gone or at their last hit |
| `SqliteDecrements.SqliteAcceptsTooMany` | `src/agents/store/rusqlite.rs:353-358` | a run from the empty stores in which memory refuses a third request and SQLite accepts it |
| `SingleFlight.TasksShareTheSlot` | `src/agents/store/memory.rs:121-137` | all tasks of a URL hold the slot that the map holds, also across collections |
| `SingleFlight.OneFetchPerUrl` | `src/agents/store/memory.rs:175-193` | at most one fetch per URL runs at a time |
| `SingleFlight.HitsAreFresh` | `src/agents/store/memory.rs:175-193` | cached data is served only within `expire_cache` or its `max-age`, counted from its fetch |
| `SingleFlight.FetchOnlyWhenStale` | `src/agents/store/memory.rs:175-193` | a task that waited fetches only if the slot holds nothing live |
| `SingleFlight.DataIsKept` | `src/agents/store/memory.rs:121-137` | fetched data stays in the slot that the map holds, through any steps, while either of its two times runs |
| `SingleFlight.KeptDataIsServed` | `src/agents/store/memory.rs:175-193` | every task that gets a URL's lock within `expire_cache` or `max-age` of a fetch is served its data without another fetch |
| `SingleFlight.FetchesIff` | `src/agents/store/memory.rs:175-193` | a task that gets the lock fetches iff the slot holds no data, or both times of its data have passed |
| `Base64.DecodeEncode` | `src/utils/base64url.rs:1-9` | decoding undoes encoding for every byte string and both alphabets |
| `Base64.EncodeDecode` | `src/utils/base64url.rs:6-9` | only encodings are accepted, so each byte string has one text |
| `Base64.DecodeConcat` | `src/utils/pem.rs:72-92` | joined encodings decode to the joined bytes when the first ends on a whole group |
| `Base64.PaddingInside` | `src/utils/pem.rs:72-92` | text with padding inside is refused |
| `Base64.Alphabets` | `src/utils/base64url.rs:1-9` | the 64 characters of both alphabets, in order |
| `Base64.PaddingIs` | `src/utils/base64url.rs:1-9` | no padding in the URL-safe form, one or two `=` behind a short last group in the other |
| `Base64.GroupIsNumber` | `src/utils/base64url.rs:1-9` | three bytes and their four sextets are the same number of 24 bits, also at a short end |
| `Base64.GroupsFollow` | `src/utils/base64url.rs:1-9` | the `k`-th four sextets are those of the `k`-th three bytes |
| `Pem.ParseKeyPairs` | `src/utils/pem.rs:47-98` | the line loop computes the line-by-line reading of the document, errors included |
| `Pem.FromDer` | `src/utils/pem.rs:101-119` | the chunk loop writes markers around base64 in lines of 64 |
| `PemTheorems.ParseIsBlocks` | `src/utils/pem.rs:49-93` | reading equals cutting into blocks and decoding each joined to all earlier ones |
| `PemTheorems.SingleDocument` | `src/utils/pem.rs:47-119` | one written document is read back as one key, whatever lines without start markers surround it |
| `PemTheorems.OneBlock` | `src/utils/pem.rs:62-96` | one block of either kind, in lines of any length: what its lines carry is decoded and goes to the constructors of its kind, for PKCS #8 first to the one for Ed25519; the error says which of the two failed |
| `PemTheorems.BlanksDoNotCount` | `src/utils/pem.rs:80-94` | blanks, tabs, carriage returns and line feeds around a line of base64 do not count |
| `PemTheorems.DocumentLines` | `src/utils/pem.rs:101-119` | the written lines are the markers and rows of 64 characters with a last one that may be shorter |
| `PemTheorems.MarkersAre` | `src/utils/pem.rs:9-12` | the four markers as text |
| `PemTheorems.NothingIsLost` | `src/utils/pem.rs:53-60` | the lines of a text, joined, are the text |
| `PemTheorems.LineIs` | `src/utils/pem.rs:53-60` | each line ends behind its first newline, and only the last may have none |
| `PemTheorems.BundleReadBackIff` | `src/utils/pem.rs:49-93` | a series of written documents is read back iff all but the last are empty |
| `PemTheorems.TwoDocumentsAreNotReadBack` | `src/utils/pem.rs:49-93` | two one-byte documents that are not read back |
| `PemTheorems.TwoKeysAreRefused` | `src/utils/pem.rs:72-92` | with constructors that refuse trailing bytes, a series of keys is read iff there is at most one |
| `Jws.SignJws` | `src/utils/keys.rs:91-157` | the pushes build the compact serialization for both key types, or report the signing error |
| `Jws.ReadEd25519Jwk` | `src/utils/keys.rs:108-118` | the published JWK of an Ed25519 key, read back as a provider key |
| `Jws.ReadRsaJwk` | `src/utils/keys.rs:159-174` | the published JWK of an RSA key, read back as a provider key |
| `Jws.SplitDots` | `src/crypto.rs:157-160` | splitting yields parts without dots that join to the text |
| `Jws.DecodeParts` | `src/crypto.rs:161-170` | all parts are decoded, or the first bad one is reported by its number |
| `JwsTheorems.TokenParts` | `src/crypto.rs:157-170` | a signed token has three parts, and the verified prefix is the signed input |
| `JwsTheorems.AcceptedIsGenuine` | `src/crypto.rs:152-228` | a token is accepted iff it is three parts without dots that decode, whose header names the one matching `sig` key, of the asked type, that signed the first two as they stand |
| `JwsTheorems.RoundTrip` | `src/utils/keys.rs:91-174` | verifying a signed token against any key set with that key's JWK and no other signing key of its name returns the payload |
| `JwsTheorems.OtherAlgorithmIsRefused` | `src/crypto.rs:193-215` | asking for the other algorithm refuses the token |
| `JwsTheorems.WrongFormatIff` | `src/crypto.rs:157-161` | the format is refused iff the token does not have exactly two dots |
| `JwsTheorems.NotMatchedIff` | `src/crypto.rs:181-192` | `KidNotMatched` iff no key, or more than one, is a signing key of that name |
| `JwsTheorems.BadSignatureIff` | `src/crypto.rs:220-224` | `BadSignature` iff the one key found does not accept the signature |
| `JwsTheorems.HeaderIs` | `src/utils/keys.rs:97-97` | the header names the key and its algorithm and nothing else |
| `JwsTheorems.KeyTypeIs` | `src/utils/keys.rs:108-118` | a published key carries its type, its use and its name |
| `Claims.PayloadIs` | `src/crypto.rs:242-255` | the claims of a token, read back as they were meant: issuer, audience, subject, both addresses, nonce, and a life of `token_ttl` |
| `Claims.BrokerClaimsPassIff` | `src/bridges/oidc.rs:252-294` | claims of this form pass the checks iff issuer, audience and nonce match, the addresses match or are Google's forms of one, and the time is within thirty seconds of the token's life |
| `Claims.BrokerTokenPasses` | `src/bridges/oidc.rs:240-284` | a token signed by one broker for what another asked is accepted there with the published key set, as long as it is valid |
| `Claims.PassedClaims` | `src/bridges/oidc.rs:252-294` | whatever passes has the right issuer, audience, nonce and address and is within its time |
| `Session.Context.StartSession` | `src/web.rs:122-146` | the context gets an identifier and data, and keeps its return parameters |
| `Session.Context.SaveSession` | `src/web.rs:152-166` | saving takes the data out of the context, also when the store then fails; without data nothing is sent and the answer is `false` |
| `Session.Context.LoadSession` | `src/web.rs:169-187` | a failing store is an internal error and a missing session `SessionExpired`, both changing nothing; a found one fills the context |
| `SessionInvariant.RunKeepsInv` | `src/handlers/auth.rs:176-279` | in every run tasks, messages and store agree on who started and who claimed each session |
| `SessionTheorems.ClaimedAtMostOnce` | `src/web.rs:152-166` | each session is claimed at most once, also when discovery times out during the claim, and only its claim is ever stored |
| `SessionTheorems.ClaimIsFinal` | `src/bridges/oidc.rs:200-204` | a claim never changes hands or data |
| `SessionTheorems.FallbackIsRefusedIff` | `src/handlers/auth.rs:234-279` | the email loop fails to claim iff the OpenID Connect bridge already has, and claims otherwise |
| `SessionTheorems.TimedOutClaim` | `src/bridges/email.rs:70-80` | a run in which the email loop fails to claim, for any request |
| `SessionTheorems.CompletesThroughItsBridge` | `src/bridges/email.rs:134-154` | a session is completed only through the bridge that claimed it, with the mailed code if any, and with the address, nonce, algorithm and return parameters of the request that started it |
| `SessionSteps.RequestAsksLimits` | `src/handlers/auth.rs:176-187` | a request asks the limits for its email address, its client and the address it comes from, once and before anything else |
| `SessionSteps.TestAnswers` | `src/handlers/auth.rs:176-200` | the verdict a request goes on with is the store's |
| `SessionSteps.StartsIff` | `src/handlers/auth.rs:176-226` | a session starts iff the limits and the domain let the request pass; otherwise the refusal is the one the source gives, and nothing is sent |
| `SessionSteps.OidcClaims` | `src/bridges/oidc.rs:200-204` | in every run, the OpenID Connect bridge claims a session that nobody has claimed, with the data of the request that started it and its own, in one message |
| `SessionSteps.FallsBackIff` | `src/handlers/auth.rs:268-279` | discovery falls back to the email loop on errors of the provider; any other error ends the request |
| `SessionSteps.TimeOutFallsBack` | `src/handlers/auth.rs:243-263` | a timeout of discovery, also during the claim, falls back to the email loop |
| `SessionSteps.ReturnAsksStore` | `src/bridges/email.rs:134-145` | whoever returns asks the store for that session and sends nothing else |
| `SessionSteps.LoadsIff` | `src/bridges/oidc.rs:231-235` | a loaded session is checked iff the user came back through the bridge that claimed it; otherwise the error is the source's |
| `SessionSteps.ChecksIff` | `src/bridges/email.rs:147-153` | a check goes on to the delete iff the token is verified, or the code is the mailed one; otherwise it fails as `ProviderInput` and sends nothing |
| `SessionSteps.CompletesOnlyWhenPassed` | `src/bridges/oidc.rs:240-298` | in every run, whoever completes a login passed a check in an earlier step; after a callback, one that found the token verified |
| `SessionSteps.SignsIff` | `src/bridges/mod.rs:38-63` | the decrement is sent iff signing succeeded; a failure to sign is an internal error and sends nothing |
| `SessionSteps.TokenIsForTheRequest` | `src/bridges/mod.rs:32-46` | in every run, the token that is signed has the audience, address, nonce and algorithm of the request that started the session |
| `SessionSteps.SavedIsStored` | `src/web.rs:152-166` | a saved session is in the store with its data until a delete or its expiry |
| `SessionSteps.GetAnswers` | `src/web.rs:169-187` | a load is answered with what the store has for that session, if anything |
| `SessionSteps.AnsweredMeansSaved` | `src/bridges/email.rs:71-95` | in every run, a claim that is told it succeeded has been stored: the link and the mail lead to a session |
| `SessionTheorems.DeletedStays` | `src/bridges/mod.rs:24-31` | a deleted session is never stored again |
| `SessionTheorems.RefusedAfterDelete` | `src/web.rs:169-187` | whoever returns after the delete gets `SessionExpired`, or a failure of the store, and never the session |
| `SessionTheorems.SignedAfterDelete` | `src/bridges/mod.rs:24-51` | no token is signed before the session's delete has taken effect |
| `SessionTheorems.DecrementsTheAcceptedInput` | `src/bridges/mod.rs:53-63` | the decrement has, field by field, the input with which the session's own /auth request was accepted |
| `SessionTheorems.DecrementTakesTheHitBack` | `src/agents/store/memory.rs:195-245` | such a decrement, right behind the test, undoes its one hit in every limit under `decr_complete` and touches no other |
| `RequestCount.DecrementUndoesTheTest` | `src/agents/store/memory.rs:195-245` | with any other messages in between: while the counter lasts, its count afterwards is as if the request had never been |
| `RequestCount.OthersKeepTheHit` | `src/agents/store/memory.rs:229-233` | a decrement changes no counter of a limit without `decr_complete` |
| `SessionCounts.NoMoreDecrementsThanLoads` | `src/bridges/mod.rs:19-63` | at any time a session has had no more decrements than tasks that were answered with it |
| `SessionCounts.DecrementsAreBounded` | `src/bridges/mod.rs:24-63` | over a whole run, a session gets at most as many decrements as tasks were answered with it before its first delete took effect |
| `SessionCounts.AnyNumberOfDecrements` | `src/web.rs:169-187` | the bound can be reached: for every number there is a run in which one session gets that many decrements |

## Left out

- HTTP serving, routing, templates, translations, static files, metrics, logging, mailers, webfinger, domain validation and configuration loading: no hard state.
- Cryptographic primitives, random numbers, the hash behind key identifiers, JSON text, URL parsing and the ASCII form of domains: parameters; where needed, signatures verify, JSON text reads back, identifiers are new, and an origin starts with `http://` or `https://` and has no `@`.
- The Redis wire encoding and connection, TLS and SQLite's schema: each command, script or statement is modelled by its effect alone. A worker that stops is not modelled, and commands that fail only in the increment script (overflow) and in the session handlers.
- A Redis key is taken to be gone at its expiry time.
- `lock` is a step that may be tried at any moment instead of its retry loop; the two-second retry and the `UNLOCK` notification only decide when.
- Agents, tasks and locks inside the step systems are values that steps replace, not objects: aliasing between them is not modelled. One algorithm's keys are modelled per system, since every name in Redis carries the algorithm.
- The timer of `DelayQueueTask` is a step that may be taken at any moment: the task stores its own deadline in place of the item's (`src/utils/delay_queue_task.rs:66`).
- Key protocol theorems assume that each save is made within its lease (`KeyInvariant.IsTimelyRun`); the theorems of `Lease` do not. A late save could overwrite another worker's rotation.
- `ImportKeySet` appears as an initial state only, since it overwrites the set without the lock.
- The panic of `Check` when workers start at the same time, and a broadcast receiver more than 8 messages behind.
- SQLite key rotation, which takes no lock, and the Redis URL cache, which reads one key and writes another (`src/agents/store/redis.rs:197-208`).
- Saved key documents are taken to parse when they are installed; `PemTheorems.SingleDocument` is the reason for those the broker writes.
- GarbageCollection.GcIsTransparent: a cached fetch is one message there; collection between concurrent fetches is the subject of `SingleFlight`.
- RateBound.InProgressBound: holds for fewer messages than the counter's saturation value.
- StoreRefinement.RedisAgreesWithMemory: a clock of whole seconds and fewer than 2^63 increments, where Redis reports an overflow.
- StoreRefinement.SqliteAgreesWithMemory: the same, and no decrements; `SqliteDecrements.SqliteAgreesAtLastHits` has those on which the stores agree.
- SqliteDecrements.SqliteAgreesAtLastHits: fewer than 2^63 increments, as above.
- RequestCount.DecrementUndoesTheTest: for a counter whose window lasts until the decrement, and below saturation; one that starts over in between no longer holds the hit.
- MemoryStore.MemoryStore.Gc: a cache slot without live data always goes; that the source keeps one that a running fetch holds is modelled in `SingleFlight`.
- Base64.EncodeDecode: the library's decoder may accept more than RFC 4648 requires, such as missing padding; the model's accepts encodings only.
- EmailAddress.FromStr: positions are counted in characters, not in bytes.
- Pem.ParseKeyPairs: reads text; invalid UTF-8, which the source replaces, and read errors are not modelled.
- Session: the checks of an identity token are one verdict, `verified`, which `Claims` takes apart; a session may expire at any time.
- Normalization of Google addresses, which is a parameter of `Claims`, and parsing of limit configurations.
- RateAcceptance.FewRecentHitsPass: a sufficient condition on the hits alone; decrements and expired windows let more pass, and `PassesIff` is exact.
