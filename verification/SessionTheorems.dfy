/** What holds in every run of the session handlers. */
module SessionTheorems {
  import opened Wrappers
  import opened LimitKey
  import opened Session
  import opened SessionInvariant
  import MemoryStore
  import StoreRun

  // ---- Claims ----

  /** However discovery ends, and however late its message lands: one claim for each session. */
  lemma ClaimedAtMostOnce(worlds: seq<World>, actions: seq<Action>, i: nat, id: SessionId)
    requires IsRun(worlds, actions) && i < |worlds|
    ensures worlds[i].claimCount[id] <= 1
    ensures id in worlds[i].sessions ==> id in worlds[i].claims && worlds[i].sessions[id] == worlds[i].claims[id]
  {
    RunKeepsInv(worlds, actions, i);
    assert IdInv(worlds[i], id);
  }

  lemma ClaimStays(w: World, a: Action, w': World, id: SessionId)
    requires SessionInv(w) && Step(w, a) == Some(w') && id in w.claims
    ensures id in w'.claims && w'.claims[id] == w.claims[id]
  {
    if a.Do? {
      var e := React(w, a.task, a.event).value;
      ReactIsSound(w, a.task, a.event, e);
      ClaimsAfter(w, a.task, e, id);
    }
  }

  lemma ClaimsAfter(w: World, t: TaskId, e: Effect, id: SessionId)
    requires IsSound(w, t, e) && id in w.claims
    ensures id in Apply(w, t, e).claims && Apply(w, t, e).claims[id] == w.claims[id]
  {
  }

  lemma ClaimStaysInRun(worlds: seq<World>, actions: seq<Action>, i: nat, id: SessionId)
    requires IsRun(worlds, actions) && i < |actions| && id in worlds[i].claims
    ensures id in worlds[i + 1].claims && worlds[i + 1].claims[id] == worlds[i].claims[id]
  {
    RunKeepsInv(worlds, actions, i);
    ClaimStays(worlds[i], actions[i], worlds[i + 1], id);
  }

  /** A claim is final: the session belongs to that bridge, with that data, from then on. */
  lemma {:induction false} ClaimIsFinal(worlds: seq<World>, actions: seq<Action>, i: nat, j: nat, id: SessionId)
    requires IsRun(worlds, actions) && i <= j < |worlds| && id in worlds[i].claims
    ensures id in worlds[j].claims && worlds[j].claims[id] == worlds[i].claims[id]
  {
    if i < j {
      ClaimIsFinal(worlds, actions, i, j - 1, id);
      ClaimStaysInRun(worlds, actions, j - 1, id);
    }
  }

  lemma EmailClaim(w: World, t: TaskId, c: Ctx, code: string, w': World)
    requires t in w.tasks && w.tasks[t] == Fallback(c) && TaskInv(w, t, Fallback(c))
    requires AfterEmail(t, c, code).Some? && w' == Apply(w, t, AfterEmail(t, c, code).value)
    ensures t in w'.tasks
    ensures w'.tasks[t] == Failed(Internal) <==> c.sessionId in w.claims
    ensures c.sessionId in w.claims ==> w.claims[c.sessionId].bridgeData.Oidc?
    ensures c.sessionId !in w.claims ==> c.sessionId in w'.claims && w'.claims[c.sessionId].bridgeData == Email(code)
  {
  }

  /** The email loop is refused exactly when discovery was cut off behind its claim. */
  lemma FallbackIsRefusedIff(worlds: seq<World>, actions: seq<Action>, i: nat, t: TaskId, c: Ctx, code: string)
    requires IsRun(worlds, actions) && i < |actions| && actions[i] == Do(t, ClaimEmail(code))
    requires t in worlds[i].tasks && worlds[i].tasks[t] == Fallback(c)
    ensures t in worlds[i + 1].tasks
    ensures worlds[i + 1].tasks[t] == Failed(Internal) <==> c.sessionId in worlds[i].claims
    ensures c.sessionId in worlds[i].claims ==> worlds[i].claims[c.sessionId].bridgeData.Oidc?
    ensures c.sessionId !in worlds[i].claims ==>
              c.sessionId in worlds[i + 1].claims && worlds[i + 1].claims[c.sessionId].bridgeData == Email(code)
  {
    RunKeepsInv(worlds, actions, i);
    assert TaskInv(worlds[i], t, worlds[i].tasks[t]);
    var e := AfterEmail(t, c, code).value;
    assert React(worlds[i], t, ClaimEmail(code)) == Some(e);
    assert worlds[i + 1] == Apply(worlds[i], t, e);
    EmailClaim(worlds[i], t, c, code, worlds[i + 1]);
  }

  lemma Extend(worlds: seq<World>, actions: seq<Action>, a: Action, w: World)
    requires IsRun(worlds, actions) && Step(worlds[|actions|], a) == Some(w)
    ensures IsRun(worlds + [w], actions + [a])
  {
    var longer, more := worlds + [w], actions + [a];
    forall i | 0 <= i < |more|
      ensures Step(longer[i], more[i]) == Some(longer[i + 1])
    {
      if i < |actions| {
        assert more[i] == actions[i] && longer[i] == worlds[i] && longer[i + 1] == worlds[i + 1];
      }
    }
  }

  /** A step of a task at the end of a run. */
  lemma Continues(worlds: seq<World>, actions: seq<Action>, t: TaskId, event: Event, e: Effect)
    returns (longer: seq<World>, more: seq<Action>)
    requires IsRun(worlds, actions) && React(worlds[|actions|], t, event) == Some(e)
    ensures IsRun(longer, more) && more == actions + [Do(t, event)]
    ensures longer[|more|] == Apply(worlds[|actions|], t, e)
    ensures longer[|more|].tasks == worlds[|actions|].tasks[t := e.phase]
  {
    var w := Apply(worlds[|actions|], t, e);
    Extend(worlds, actions, Do(t, event), w);
    longer, more := worlds + [w], actions + [Do(t, event)];
  }

  /** A step of the store at the end of a run. */
  lemma Handles(worlds: seq<World>, actions: seq<Action>, m: Message)
    returns (longer: seq<World>, more: seq<Action>)
    requires IsRun(worlds, actions) && m in worlds[|actions|].mailbox
    ensures IsRun(longer, more) && more == actions + [Handle(m, true)]
    ensures longer[|more|] == Handled(worlds[|actions|], m, true)
  {
    var w := Handled(worlds[|actions|], m, true);
    Extend(worlds, actions, Handle(m, true), w);
    longer, more := worlds + [w], actions + [Handle(m, true)];
  }

  /** A request of task 0 is accepted. */
  lemma RequestAccepted(p: AuthParams) returns (worlds: seq<World>, actions: seq<Action>)
    requires p.Valid()
    ensures IsRun(worlds, actions) && |actions| == 2
    ensures worlds[2].tasks == map[0 := Tested(p, true)] && worlds[2].starts == map[] && worlds[2].claims == map[]
    ensures worlds[2].mailbox == multiset{} && worlds[2].decrements == multiset{}
  {
    var m := IncrAndTestLimits(0, p.LimitInput());
    worlds, actions := Continues([EMPTY_WORLD], [], 0, Request(p), Begin(0, Request(p)).value);
    assert worlds[1].mailbox == multiset{m};
    worlds, actions := Handles(worlds, actions, m);
    assert multiset{m} - multiset{m} == multiset{};
  }

  lemma DiscoveryBegins(p: AuthParams) returns (worlds: seq<World>, actions: seq<Action>, c: Ctx)
    requires p.Valid()
    ensures IsRun(worlds, actions) && |actions| == 3
    ensures worlds[3].tasks == map[0 := Discovering(c)] && c.sessionId == Id(0) && c.sessionData == Some(p.Data())
    ensures worlds[3].claims == map[] && worlds[3].mailbox == multiset{} && worlds[3].decrements == multiset{}
  {
    worlds, actions := RequestAccepted(p);
    var w := worlds[2];
    var e := AfterTest(w, p, true, 0, true).value;
    c := e.phase.c;
    assert React(w, 0, Start(0, true)) == Some(e);
    worlds, actions := Continues(worlds, actions, 0, Start(0, true), e);
    assert multiset{} + Sent(None) == multiset{};
  }

  /** A run in which discovery claims the session and is timed out before the store has answered. */
  lemma TimedOutClaim(p: AuthParams, bridge: BridgeData, code: string)
    returns (worlds: seq<World>, actions: seq<Action>)
    requires p.Valid() && bridge.Oidc?
    ensures IsRun(worlds, actions) && |actions| == 6
    ensures actions[4] == Do(0, TimeOut) && actions[5] == Do(0, ClaimEmail(code))
    ensures 0 in worlds[6].tasks && worlds[6].tasks[0] == Failed(Internal)
  {
    var c: Ctx;
    worlds, actions, c := DiscoveryBegins(p);
    var e := AfterOidc(0, c, bridge).value;
    var rest := e.phase.c;
    worlds, actions := Continues(worlds, actions, 0, ClaimOidc(bridge), e);
    worlds, actions := Continues(worlds, actions, 0, TimeOut, Turn(Fallback(rest)).value);
    worlds, actions := Continues(worlds, actions, 0, ClaimEmail(code), Turn(Failed(Internal)).value);
  }

  // ---- Completion ----

  predicate IsCompleting(phase: Phase) {
    phase.Deleting? || phase.Signing? || phase.Decrementing? || phase.Completed?
  }

  /**
   Whoever gets as far as `complete_auth` came back through the bridge that claimed the session, with
   the mailed code if there is one, and completes the very request that started the session.
   */
  lemma CompletesThroughItsBridge(worlds: seq<World>, actions: seq<Action>, i: nat, t: TaskId)
    requires IsRun(worlds, actions) && i < |worlds|
    requires t in worlds[i].tasks && IsCompleting(worlds[i].tasks[t])
    ensures var w, c, via := worlds[i], worlds[i].tasks[t].c, worlds[i].tasks[t].via;
            && c.sessionId in w.claims && c.sessionId in w.starts
            && Confirms(via, w.claims[c.sessionId].bridgeData)
            && c.sessionData == Some(w.starts[c.sessionId].Data())
            && c.returnParams == Some(w.starts[c.sessionId].returnParams)
  {
    RunKeepsInv(worlds, actions, i);
    var c := worlds[i].tasks[t].c;
    assert TaskInv(worlds[i], t, worlds[i].tasks[t]);
    assert IdInv(worlds[i], c.sessionId);
  }

  // ---- After the delete ----

  lemma DeletesGrow(w: World, a: Action, w': World)
    requires Step(w, a) == Some(w')
    ensures w.deletes <= w'.deletes
  {
  }

  lemma DeletesGrowInRun(worlds: seq<World>, actions: seq<Action>, i: nat)
    requires IsRun(worlds, actions) && i < |actions|
    ensures worlds[i].deletes <= worlds[i + 1].deletes
  {
    DeletesGrow(worlds[i], actions[i], worlds[i + 1]);
  }

  lemma DeletedIsGone(worlds: seq<World>, actions: seq<Action>, i: nat, id: SessionId)
    requires IsRun(worlds, actions) && i < |worlds| && id in worlds[i].deletes
    ensures id !in worlds[i].sessions
  {
    RunKeepsInv(worlds, actions, i);
    assert IdInv(worlds[i], id);
  }

  lemma {:induction false} DeletesStay(worlds: seq<World>, actions: seq<Action>, i: nat, j: nat)
    requires IsRun(worlds, actions) && i <= j < |worlds|
    ensures worlds[i].deletes <= worlds[j].deletes
  {
    if i < j {
      DeletesStay(worlds, actions, i, j - 1);
      DeletesGrowInRun(worlds, actions, j - 1);
    }
  }

  /** A session that was deleted is never stored again. */
  lemma DeletedStays(worlds: seq<World>, actions: seq<Action>, i: nat, j: nat, id: SessionId)
    requires IsRun(worlds, actions) && i <= j < |worlds| && id in worlds[i].deletes
    ensures id in worlds[j].deletes && id !in worlds[j].sessions
  {
    DeletesStay(worlds, actions, i, j);
    DeletedIsGone(worlds, actions, j, id);
  }

  /** The phases of a task that asks for a deleted session. */
  predicate IsRefused(w: World, t: TaskId, id: SessionId) {
    t in w.tasks &&
    match w.tasks[t]
    case Loading(_, asked) => asked == id
    case Replied(_, asked, reply) => asked == id && reply.None?
    case Failed(error) => error == SessionExpired || error == Internal
    case Gone => true
    case _ => false
  }

  lemma RefusedStays(w: World, a: Action, w': World, t: TaskId, id: SessionId)
    requires Step(w, a) == Some(w') && IsRefused(w, t, id) && id !in w.sessions
    ensures IsRefused(w', t, id)
  {
    match a
    case Do(u, event) =>
      if u == t {
        RefusedContinues(w, t, id, event, React(w, t, event).value);
      } else {
        OtherStaysRefused(w, u, React(w, u, event).value, t, id);
      }
    case Handle(m, ok) => RefusedByStore(w, m, ok, t, id);
    case Expire(_) =>
  }

  lemma OtherStaysRefused(w: World, u: TaskId, e: Effect, t: TaskId, id: SessionId)
    requires IsRefused(w, t, id) && u != t
    ensures IsRefused(Apply(w, u, e), t, id)
  {
  }

  lemma RefusedContinues(w: World, t: TaskId, id: SessionId, event: Event, e: Effect)
    requires IsRefused(w, t, id) && Continue(w, t, w.tasks[t], event) == Some(e)
    ensures IsRefused(Apply(w, t, e), t, id)
  {
  }

  lemma RefusedByStore(w: World, m: Message, ok: bool, t: TaskId, id: SessionId)
    requires IsRefused(w, t, id) && id !in w.sessions
    ensures IsRefused(Handled(w, m, ok), t, id)
  {
  }

  lemma RefusedStaysInRun(worlds: seq<World>, actions: seq<Action>, i: nat, j: nat, t: TaskId, id: SessionId)
    requires IsRun(worlds, actions) && i <= j < |actions| && id in worlds[i].deletes && IsRefused(worlds[j], t, id)
    ensures IsRefused(worlds[j + 1], t, id)
  {
    DeletedStays(worlds, actions, i, j, id);
    RefusedStays(worlds[j], actions[j], worlds[j + 1], t, id);
  }

  lemma ReturnAsks(worlds: seq<World>, actions: seq<Action>, i: nat, t: TaskId, via: Via, id: SessionId)
    requires IsRun(worlds, actions) && i < |actions| && actions[i] == Do(t, Return(via, id))
    ensures IsRefused(worlds[i + 1], t, id)
  {
    assert Step(worlds[i], actions[i]) == Some(worlds[i + 1]);
  }

  /** Nobody who returns after the session was deleted gets it: only `SessionExpired`, or the store's failure. */
  lemma {:induction false} RefusedAfterDelete(
      worlds: seq<World>, actions: seq<Action>, i: nat, j: nat, t: TaskId, via: Via, id: SessionId)
    requires IsRun(worlds, actions) && i < j < |worlds|
    requires id in worlds[i].deletes && actions[i] == Do(t, Return(via, id))
    ensures IsRefused(worlds[j], t, id)
  {
    if i + 1 == j {
      ReturnAsks(worlds, actions, i, t, via, id);
    } else {
      RefusedAfterDelete(worlds, actions, i, j - 1, t, via, id);
      RefusedStaysInRun(worlds, actions, i, j - 1, t, id);
    }
  }

  /** A completing task's delete is under way until it has taken effect. */
  predicate DeleteInv(w: World, t: TaskId, phase: Phase) {
    match phase
    case Deleting(_, c) => DeleteSession(t, c.sessionId) in w.mailbox || c.sessionId in w.deletes
    case Signing(_, c) => c.sessionId in w.deletes
    case Decrementing(_, c) => c.sessionId in w.deletes
    case Completed(_, c) => c.sessionId in w.deletes
    case _ => true
  }

  lemma StepKeepsDelete(w: World, a: Action, w': World, t: TaskId)
    requires t in w.tasks ==> DeleteInv(w, t, w.tasks[t])
    requires Step(w, a) == Some(w') && t in w'.tasks
    ensures DeleteInv(w', t, w'.tasks[t])
  {
    match a
    case Do(u, event) => TaskKeepsDelete(w, u, event, React(w, u, event).value, t);
    case Handle(m, ok) => HandleKeepsDelete(w, m, ok, t);
    case Expire(_) =>
  }

  /** A task deletes before it signs, and signs only when the delete has been answered. */
  predicate DeletesFirst(w: World, t: TaskId, e: Effect) {
    && (e.phase.Deleting? ==> e.sent == Some(DeleteSession(t, e.phase.c.sessionId)))
    && (e.phase.Signing? || e.phase.Decrementing? || e.phase.Completed? ==> e.phase.c.sessionId in w.deletes)
  }

  lemma TaskKeepsDelete(w: World, u: TaskId, event: Event, e: Effect, t: TaskId)
    requires t in w.tasks ==> DeleteInv(w, t, w.tasks[t])
    requires React(w, u, event) == Some(e) && t in Apply(w, u, e).tasks
    ensures DeleteInv(Apply(w, u, e), t, Apply(w, u, e).tasks[t])
  {
    Applied(w, u, e);
    if u == t {
      ReactionDeletes(w, t, event, e);
      OwnKeepsDelete(w, t, e, Apply(w, u, e));
    } else {
      OtherKeepsDelete(w, w.tasks[t], t, Apply(w, u, e));
    }
  }

  lemma Applied(w: World, u: TaskId, e: Effect)
    ensures var w' := Apply(w, u, e);
            w'.tasks == w.tasks[u := e.phase] && w'.mailbox == w.mailbox + Sent(e.sent) && w'.deletes == w.deletes
  {
  }

  lemma OwnKeepsDelete(w: World, t: TaskId, e: Effect, w': World)
    requires DeletesFirst(w, t, e)
    requires w'.mailbox == w.mailbox + Sent(e.sent) && w'.deletes == w.deletes
    ensures DeleteInv(w', t, e.phase)
  {
  }

  lemma OtherKeepsDelete(w: World, phase: Phase, t: TaskId, w': World)
    requires DeleteInv(w, t, phase)
    requires w.mailbox <= w'.mailbox && w'.deletes == w.deletes
    ensures DeleteInv(w', t, phase)
  {
  }

  lemma ReactionDeletes(w: World, t: TaskId, event: Event, e: Effect)
    requires t in w.tasks ==> DeleteInv(w, t, w.tasks[t])
    requires React(w, t, event) == Some(e)
    ensures DeletesFirst(w, t, e)
  {
  }

  lemma HandleKeepsDelete(w: World, m: Message, ok: bool, t: TaskId)
    requires t in w.tasks && DeleteInv(w, t, w.tasks[t])
    ensures t in Handled(w, m, ok).tasks && DeleteInv(Handled(w, m, ok), t, Handled(w, m, ok).tasks[t])
  {
  }

  /** No token is signed while the session can still be loaded, now or later. */
  lemma {:induction false} SignedAfterDelete(worlds: seq<World>, actions: seq<Action>, i: nat, t: TaskId)
    requires IsRun(worlds, actions) && i < |worlds| && t in worlds[i].tasks
    ensures DeleteInv(worlds[i], t, worlds[i].tasks[t])
    ensures worlds[i].tasks[t].Signing? ==> worlds[i].tasks[t].c.sessionId !in worlds[i].sessions
  {
    if i > 0 {
      if t in worlds[i - 1].tasks {
        SignedAfterDelete(worlds, actions, i - 1, t);
      }
      StepKeepsDelete(worlds[i - 1], actions[i - 1], worlds[i], t);
    }
    if worlds[i].tasks[t].Signing? {
      DeletedStays(worlds, actions, i, i, worlds[i].tasks[t].c.sessionId);
    }
  }

  // ---- Rate limits ----

  /**
   Every decrement repeats, field by field, the input with which the /auth request that started the
   session was tested and accepted, though it is put together from the session's data.
   */
  lemma DecrementsTheAcceptedInput(worlds: seq<World>, actions: seq<Action>, i: nat, m: Message)
    requires IsRun(worlds, actions) && i < |worlds| && m in worlds[i].mailbox && m.DecrLimits?
    ensures var w := worlds[i];
            && m.id in w.starters && w.starters[m.id] in w.accepted
            && m.input == w.accepted[w.starters[m.id]]
  {
    RunKeepsInv(worlds, actions, i);
    assert MessageInv(worlds[i], m);
    assert IdInv(worlds[i], m.id);
  }

  lemma HitTakenBack(entry: Option<MemoryStore.Entry<nat>>, limit: LimitConfig, at: int, now: int)
    requires at <= now
    ensures var before, hit := StoreRun.Alive(entry, at), MemoryStore.IncrEntry(entry, limit, at);
            && (hit.IsAlive(now) && before.None? ==> MemoryStore.DecrEntry(Some(hit), now).None?)
            && (hit.IsAlive(now) && before.Some? && 0 < before.value.value < MemoryStore.USIZE_MAX ==>
                  MemoryStore.DecrEntry(Some(hit), now) == Some(hit.(value := before.value.value)))
  {
  }

  /**
   What that means for the counters: with the same input, a decrement takes back the one hit of the
   test in every limit under `decr_complete` while its window lasts, and leaves all others alone.
   */
  lemma DecrementTakesTheHitBack(
      counters: MemoryStore.Counters, limits: seq<LimitConfig>, input: LimitInput, i: nat, at: int, now: int)
    requires i < |limits| && HaveDistinctIds(limits)
    requires at <= now
    ensures var key := StoreRun.CounterKey(input, limits[i]);
            var before := StoreRun.Alive(Lookup(counters, key), at);
            var hit := MemoryStore.IncrAll(counters, limits, input, at).0;
            var after := Lookup(MemoryStore.DecrAll(hit, limits, input, now), key);
            && key in hit
            && (!limits[i].decrComplete ==> after == Some(hit[key]))
            && (limits[i].decrComplete && hit[key].IsAlive(now) && before.None? ==> after.None?)
            && (limits[i].decrComplete && hit[key].IsAlive(now) && before.Some?
                  && 0 < before.value.value < MemoryStore.USIZE_MAX ==>
                  after == Some(hit[key].(value := before.value.value)))
  {
    HitTakenBack(Lookup(counters, StoreRun.CounterKey(input, limits[i])), limits[i], at, now);
    StoreRun.IncrAt(counters, limits, input, at, i, input);
    StoreRun.DecrAt(MemoryStore.IncrAll(counters, limits, input, at).0, limits, input, now, i, input);
  }
}
