/**
 Which way the handlers go: what lets a request start a session, discovery fall back, a returning user
 complete, and a token be signed; and that nobody is answered before the store has done its part.
 */
module SessionSteps {
  import opened Wrappers
  import opened Session
  import opened SessionInvariant
  import opened SessionTheorems
  import LimitKey
  import Claims

  /** What one event of a task does: the next phase, and what is sent. */
  predicate Leads(worlds: seq<World>, i: nat, t: TaskId, phase: Phase, sent: multiset<Message>)
    requires i + 1 < |worlds|
  {
    && t in worlds[i + 1].tasks && worlds[i + 1].tasks[t] == phase
    && worlds[i + 1].mailbox == worlds[i].mailbox + sent
  }

  lemma EventStep(worlds: seq<World>, actions: seq<Action>, i: nat, t: TaskId, event: Event)
    requires IsRun(worlds, actions) && i < |actions| && actions[i] == Do(t, event)
    ensures React(worlds[i], t, event).Some?
    ensures worlds[i + 1] == Apply(worlds[i], t, React(worlds[i], t, event).value)
  {
    assert Step(worlds[i], actions[i]) == Some(worlds[i + 1]);
  }

  // ---- /auth ----

  /** A request asks the limits, for its address, its client and where it comes from, and nothing else. */
  lemma RequestAsksLimits(worlds: seq<World>, actions: seq<Action>, i: nat, t: TaskId, p: AuthParams)
    requires IsRun(worlds, actions) && i < |actions| && actions[i] == Do(t, Request(p))
    ensures Leads(worlds, i, t, Testing(p),
                  multiset{IncrAndTestLimits(t, LimitKey.LimitInput(p.emailAddr, p.clientId, p.ip))})
  {
    EventStep(worlds, actions, i, t, Request(p));
  }

  /** The verdict that a waiting request is told is the store's. */
  lemma TestAnswers(worlds: seq<World>, actions: seq<Action>, i: nat, t: TaskId, input: LimitKey.LimitInput, ok: bool)
    requires IsRun(worlds, actions) && i < |actions| && actions[i] == Handle(IncrAndTestLimits(t, input), ok)
    requires t in worlds[i].tasks && worlds[i].tasks[t].Testing?
    ensures t in worlds[i + 1].tasks && worlds[i + 1].tasks[t] == Tested(worlds[i].tasks[t].p, ok)
  {
    assert Step(worlds[i], actions[i]) == Some(worlds[i + 1]);
  }

  /** A session starts if and only if the limits and the domain let the request pass. */
  lemma StartsIff(worlds: seq<World>, actions: seq<Action>, i: nat, t: TaskId, number: nat, domainOk: bool)
    requires IsRun(worlds, actions) && i < |actions| && actions[i] == Do(t, Start(number, domainOk))
    ensures t in worlds[i].tasks && worlds[i].tasks[t].Tested? && t in worlds[i + 1].tasks
    ensures var Tested(p, ok), w, w' := worlds[i].tasks[t], worlds[i], worlds[i + 1];
            && w'.mailbox == w.mailbox
            && (w'.tasks[t].Discovering? <==> ok && domainOk)
            && w'.starts == (if ok && domainOk then w.starts[Id(number) := p] else w.starts)
            && (ok && domainOk ==> w'.tasks[t].c == Ctx(Id(number), Some(p.Data()), Some(p.returnParams)))
            && (!ok ==> w'.tasks[t] == Failed(RateLimited))
            && (ok && !domainOk ==> w'.tasks[t] == Failed(Input))
  {
    EventStep(worlds, actions, i, t, Start(number, domainOk));
    assert worlds[i].mailbox + Sent(None) == worlds[i].mailbox;
  }

  /** Discovery falls back to the email loop on a timeout and on errors of the provider, and on nothing else. */
  lemma FallsBackIff(worlds: seq<World>, actions: seq<Action>, i: nat, t: TaskId, error: BrokerError)
    requires IsRun(worlds, actions) && i < |actions|
    requires actions[i] == Do(t, DiscoveryFails(error))
    ensures t in worlds[i].tasks && worlds[i].tasks[t].Discovering?
    ensures Leads(worlds, i, t, if error == Provider || error == ProviderCancelled then Fallback(worlds[i].tasks[t].c)
                                else Failed(error), multiset{})
  {
    EventStep(worlds, actions, i, t, DiscoveryFails(error));
  }

  /**
   The bridge for OpenID Connect always finds something to save, and the claim it sends holds the data of
   the request that started the session and the bridge's own.
   */
  lemma OidcClaims(worlds: seq<World>, actions: seq<Action>, i: nat, t: TaskId, bridge: BridgeData)
    requires IsRun(worlds, actions) && i < |actions| && actions[i] == Do(t, ClaimOidc(bridge))
    ensures t in worlds[i].tasks && worlds[i].tasks[t].Discovering?
    ensures var id, w := worlds[i].tasks[t].c.sessionId, worlds[i];
            && id in w.starts && id !in w.claims
            && var claim := Stored(w.starts[id].Data(), bridge);
               && worlds[i + 1].claims == w.claims[id := claim]
               && Leads(worlds, i, t, ClaimingOidc(w.tasks[t].c.(sessionData := None)),
                        multiset{SaveSession(t, id, claim)})
  {
    EventStep(worlds, actions, i, t, ClaimOidc(bridge));
    RunKeepsInv(worlds, actions, i);
    assert TaskInv(worlds[i], t, worlds[i].tasks[t]);
  }

  lemma TimeOutFallsBack(worlds: seq<World>, actions: seq<Action>, i: nat, t: TaskId)
    requires IsRun(worlds, actions) && i < |actions| && actions[i] == Do(t, TimeOut)
    ensures t in worlds[i].tasks && (worlds[i].tasks[t].Discovering? || worlds[i].tasks[t].ClaimingOidc?)
    ensures Leads(worlds, i, t, Fallback(worlds[i].tasks[t].c), multiset{})
  {
    EventStep(worlds, actions, i, t, TimeOut);
  }

  // ---- The user returns ----

  /** Whoever returns asks the store for the session, and nothing else. */
  lemma ReturnAsksStore(worlds: seq<World>, actions: seq<Action>, i: nat, t: TaskId, via: Via, id: SessionId)
    requires IsRun(worlds, actions) && i < |actions| && actions[i] == Do(t, Return(via, id))
    ensures Leads(worlds, i, t, Loading(via, id), multiset{GetSession(t, id)})
  {
    EventStep(worlds, actions, i, t, Return(via, id));
  }

  /** A loaded session is checked if and only if the user came back through the bridge that claimed it. */
  lemma LoadsIff(worlds: seq<World>, actions: seq<Action>, i: nat, t: TaskId)
    requires IsRun(worlds, actions) && i < |actions| && actions[i] == Do(t, Load)
    ensures t in worlds[i].tasks && worlds[i].tasks[t].Replied?
    ensures var Replied(via, id, reply) := worlds[i].tasks[t];
            Leads(worlds, i, t,
                  if reply.None? then Failed(SessionExpired)
                  else if via.Callback? != reply.value.bridgeData.Oidc? then Failed(ProviderInput)
                  else Checking(via, LoadedCtx(id, reply.value), reply.value.bridgeData), multiset{})
  {
    EventStep(worlds, actions, i, t, Load);
  }

  /** What a check has to find: a verified token of the provider, or the code that was mailed. */
  predicate Passes(via: Via, bridge: BridgeData, verified: bool) {
    match via
    case Callback => verified
    case Confirmation(code) => bridge == Email(code)
  }

  lemma CheckedEffect(w: World, t: TaskId, via: Via, c: Ctx, bridge: BridgeData, verified: bool)
    requires Fits(via, bridge)
    ensures AfterCheck(t, via, c, bridge, verified)
         == if Passes(via, bridge, verified) then Sending(Deleting(via, c), DeleteSession(t, c.sessionId))
            else Turn(Failed(ProviderInput))
  {
  }

  /** A check that passes sends the delete; any other is the user's error and sends nothing. */
  lemma ChecksIff(worlds: seq<World>, actions: seq<Action>, i: nat, t: TaskId, verified: bool)
    requires IsRun(worlds, actions) && i < |actions| && actions[i] == Do(t, Check(verified))
    ensures t in worlds[i].tasks && worlds[i].tasks[t].Checking?
    ensures var Checking(via, c, bridge) := worlds[i].tasks[t];
            if Passes(via, bridge, verified)
            then Leads(worlds, i, t, Deleting(via, c), multiset{DeleteSession(t, c.sessionId)})
            else Leads(worlds, i, t, Failed(ProviderInput), multiset{})
  {
    EventStep(worlds, actions, i, t, Check(verified));
    RunKeepsInv(worlds, actions, i);
    assert TaskInv(worlds[i], t, worlds[i].tasks[t]);
    var Checking(via, c, bridge) := worlds[i].tasks[t];
    CheckedEffect(worlds[i], t, via, c, bridge, verified);
  }

  /** The step of the run in which the task passed its check. */
  predicate Passed(worlds: seq<World>, actions: seq<Action>, k: nat, t: TaskId, via: Via) {
    && k < |actions| && k < |worlds| && t in worlds[k].tasks && worlds[k].tasks[t].Checking?
    && worlds[k].tasks[t].via == via && actions[k].Do? && actions[k].task == t && actions[k].event.Check?
    && Passes(via, worlds[k].tasks[t].bridge, actions[k].event.verified)
  }

  lemma ViaStays(w: World, t: TaskId, event: Event, e: Effect)
    requires t in w.tasks && IsCompleting(w.tasks[t]) && Continue(w, t, w.tasks[t], event) == Some(e)
    ensures IsCompleting(e.phase) ==> e.phase.via == w.tasks[t].via
  {
  }

  lemma CompletingComesFromCheck(w: World, t: TaskId, event: Event, e: Effect)
    requires React(w, t, event) == Some(e) && IsCompleting(e.phase)
    ensures t in w.tasks
    ensures !IsCompleting(w.tasks[t]) ==> w.tasks[t].Checking? && event.Check? && e.phase.via == w.tasks[t].via
  {
  }

  lemma AnswersNoCompletion(w: World, m: Message, ok: bool, t: TaskId)
    requires t in Answer(w, m, ok) && IsCompleting(Answer(w, m, ok)[t])
    ensures t in w.tasks && w.tasks[t] == Answer(w, m, ok)[t]
  {
  }

  /** One step back from a completing task: it was completing before, or has just passed its check. */
  lemma CompletingBefore(worlds: seq<World>, actions: seq<Action>, i: nat, t: TaskId)
    requires IsRun(worlds, actions) && i < |actions|
    requires t in worlds[i + 1].tasks && IsCompleting(worlds[i + 1].tasks[t])
    ensures t in worlds[i].tasks
    ensures (IsCompleting(worlds[i].tasks[t]) && worlds[i].tasks[t].via == worlds[i + 1].tasks[t].via)
            || Passed(worlds, actions, i, t, worlds[i + 1].tasks[t].via)
  {
    assert Step(worlds[i], actions[i]) == Some(worlds[i + 1]);
    match actions[i]
    case Do(u, event) =>
      if u == t {
        var e := React(worlds[i], t, event).value;
        CompletingComesFromCheck(worlds[i], t, event, e);
        if IsCompleting(worlds[i].tasks[t]) {
          ViaStays(worlds[i], t, event, e);
        } else {
          ChecksIff(worlds, actions, i, t, event.verified);
        }
      }
    case Handle(m, ok) => AnswersNoCompletion(worlds[i], m, ok, t);
    case Expire(_) =>
  }

  /**
   Nobody completes a login without having passed a check in an earlier step of the run: after a callback
   that was found verified, after a confirmation with the code that was mailed for the session.
   */
  lemma {:induction false} CompletesOnlyWhenPassed(worlds: seq<World>, actions: seq<Action>, i: nat, t: TaskId)
    returns (k: nat)
    requires IsRun(worlds, actions) && i < |worlds| && t in worlds[i].tasks && IsCompleting(worlds[i].tasks[t])
    ensures k < i && Passed(worlds, actions, k, t, worlds[i].tasks[t].via)
    ensures worlds[i].tasks[t].via.Callback? ==> actions[k] == Do(t, Check(true))
  {
    CompletingBefore(worlds, actions, i - 1, t);
    if IsCompleting(worlds[i - 1].tasks[t]) {
      k := CompletesOnlyWhenPassed(worlds, actions, i - 1, t);
    } else {
      k := i - 1;
    }
  }

  /** A token that was signed is counted down; a failure to sign is an internal error that sends nothing. */
  lemma SignsIff(worlds: seq<World>, actions: seq<Action>, i: nat, t: TaskId, ok: bool)
    requires IsRun(worlds, actions) && i < |actions| && actions[i] == Do(t, Sign(ok))
    ensures t in worlds[i].tasks && worlds[i].tasks[t].Signing?
    ensures var Signing(via, c), id, w := worlds[i].tasks[t], worlds[i].tasks[t].c.sessionId, worlds[i];
            && id in w.starts
            && var m := DecrLimits(t, id, w.starts[id].LimitInput());
               if ok then Leads(worlds, i, t, Decrementing(via, c), multiset{m})
               else Leads(worlds, i, t, Failed(Internal), multiset{})
  {
    EventStep(worlds, actions, i, t, Sign(ok));
    RunKeepsInv(worlds, actions, i);
    var c := worlds[i].tasks[t].c;
    assert TaskInv(worlds[i], t, worlds[i].tasks[t]) && IdInv(worlds[i], c.sessionId);
    InputIsKept(worlds[i], c);
  }

  /**
   The token that is signed in the end says what the /auth request asked for: its audience is the client
   of the request, its subject the address, and the nonce and the algorithm are the request's own.
   */
  lemma TokenIsForTheRequest(worlds: seq<World>, actions: seq<Action>, i: nat, t: TaskId,
                             publicUrl: string, now: nat, tokenTtl: nat)
    requires IsRun(worlds, actions) && i < |worlds| && t in worlds[i].tasks && worlds[i].tasks[t].Signing?
    requires now + tokenTtl <= Claims.U64_MAX
    ensures var c := worlds[i].tasks[t].c;
            && c.sessionId in worlds[i].starts && c.sessionData.Some?
            && var p, d := worlds[i].starts[c.sessionId], c.sessionData.value;
               var token := Claims.Payload(publicUrl, d.email, d.emailAddr.serialization,
                                           d.returnParams.redirectUri.origin, d.nonce, now, tokenTtl);
               && token.Text("aud") == Some(p.clientId) && token.Text("nonce") == Some(p.nonce)
               && token.Text("sub") == Some(p.emailAddr.serialization)
               && token.Text("email_original") == Some(p.email)
               && d.signingAlg == p.signingAlg && d.returnParams == p.returnParams && d.originalIp == p.ip
  {
    CompletesThroughItsBridge(worlds, actions, i, t);
    RunKeepsInv(worlds, actions, i);
    var c := worlds[i].tasks[t].c;
    assert IdInv(worlds[i], c.sessionId);
    var d := c.sessionData.value;
    Claims.PayloadIs(publicUrl, d.email, d.emailAddr.serialization, d.returnParams.redirectUri.origin, d.nonce,
                     now, tokenTtl);
  }

  // ---- What the store keeps ----

  /** The step neither deletes the session nor lets it expire. */
  predicate Leaves(a: Action, id: SessionId) {
    && (a.Handle? && a.message.DeleteSession? ==> a.message.id != id)
    && (a.Expire? ==> a.id != id)
  }

  lemma StoredStays(w: World, a: Action, w': World, id: SessionId)
    requires SessionInv(w) && Step(w, a) == Some(w') && Leaves(a, id) && id in w.sessions
    ensures id in w'.sessions && w'.sessions[id] == w.sessions[id]
  {
    assert IdInv(w, id);
    assert a.Handle? ==> MessageInv(w, a.message);
  }

  /** A session that was saved is there until it is deleted or expires, with the data of its save. */
  lemma {:induction false} SavedIsStored(worlds: seq<World>, actions: seq<Action>, i: nat, j: nat, t: TaskId,
                                         id: SessionId, data: Stored, ok: bool)
    requires IsRun(worlds, actions) && i < j < |worlds| && actions[i] == Handle(SaveSession(t, id, data), ok)
    requires forall k :: i < k < j ==> Leaves(actions[k], id)
    ensures id in worlds[j].sessions && worlds[j].sessions[id] == data
  {
    assert Step(worlds[j - 1], actions[j - 1]) == Some(worlds[j]);
    if i + 1 < j {
      SavedIsStored(worlds, actions, i, j - 1, t, id, data, ok);
      RunKeepsInv(worlds, actions, j - 1);
      StoredStays(worlds[j - 1], actions[j - 1], worlds[j], id);
    }
  }

  /** The store answers a waiting task with what it has. */
  lemma GetAnswers(worlds: seq<World>, actions: seq<Action>, i: nat, t: TaskId, id: SessionId, ok: bool, via: Via)
    requires IsRun(worlds, actions) && i < |actions| && actions[i] == Handle(GetSession(t, id), ok)
    requires t in worlds[i].tasks && worlds[i].tasks[t] == Loading(via, id)
    ensures t in worlds[i + 1].tasks && worlds[i + 1].tasks[t] == Replied(via, id, Lookup(worlds[i].sessions, id))
  {
    assert Step(worlds[i], actions[i]) == Some(worlds[i + 1]);
  }

  // ---- Nobody is answered too early ----

  /** A claim has taken effect, or its message is still under way. */
  predicate ClaimArrives(w: World, id: SessionId) {
    id in w.claims ==>
      id in w.landed || (id in w.starters && SaveSession(w.starters[id], id, w.claims[id]) in w.mailbox)
  }

  lemma EffectKeepsArrival(w: World, t: TaskId, e: Effect, id: SessionId)
    requires IsSound(w, t, e) && ClaimArrives(w, id) && IdInv(w, id)
    ensures ClaimArrives(Apply(w, t, e), id)
  {
  }

  lemma HandledKeepsArrival(w: World, m: Message, ok: bool, id: SessionId)
    requires m in w.mailbox && ClaimArrives(w, id)
    ensures ClaimArrives(Handled(w, m, ok), id)
  {
  }

  lemma StepKeepsArrival(w: World, a: Action, w': World, id: SessionId)
    requires SessionInv(w) && ClaimArrives(w, id) && Step(w, a) == Some(w')
    ensures ClaimArrives(w', id)
  {
    match a
    case Do(t, event) =>
      assert IdInv(w, id);
      ReactIsSound(w, t, event, React(w, t, event).value);
      EffectKeepsArrival(w, t, React(w, t, event).value, id);
    case Handle(m, ok) => HandledKeepsArrival(w, m, ok, id);
    case Expire(_) =>
  }

  lemma ArrivalInRun(worlds: seq<World>, actions: seq<Action>, i: nat, id: SessionId)
    requires IsRun(worlds, actions) && i < |actions| && ClaimArrives(worlds[i], id)
    ensures ClaimArrives(worlds[i + 1], id)
  {
    RunKeepsInv(worlds, actions, i);
    StepKeepsArrival(worlds[i], actions[i], worlds[i + 1], id);
  }

  lemma {:induction false} ClaimsArrive(worlds: seq<World>, actions: seq<Action>, i: nat, id: SessionId)
    requires IsRun(worlds, actions) && i < |worlds|
    ensures ClaimArrives(worlds[i], id)
  {
    if i > 0 {
      ClaimsArrive(worlds, actions, i - 1, id);
      ArrivalInRun(worlds, actions, i - 1, id);
    }
  }

  lemma SavedPhase(w: World, t: TaskId, phase: Phase)
    requires phase.ClaimingOidc? || phase.ClaimingEmail?
    requires TaskInv(w, t, phase) && ClaimArrives(w, phase.c.sessionId) && AfterAwait(w, t, phase).Some?
    ensures phase.c.sessionId in w.landed && AfterAwait(w, t, phase) == Turn(Answered)
  {
  }

  /** The answer to /auth is given only when the store has the session: the link and the mail lead to it. */
  lemma AnsweredMeansSaved(worlds: seq<World>, actions: seq<Action>, i: nat, t: TaskId)
    requires IsRun(worlds, actions) && i < |actions| && actions[i] == Do(t, Resume)
    requires t in worlds[i].tasks && (worlds[i].tasks[t].ClaimingOidc? || worlds[i].tasks[t].ClaimingEmail?)
    ensures Leads(worlds, i, t, Answered, multiset{}) && worlds[i].tasks[t].c.sessionId in worlds[i].landed
  {
    EventStep(worlds, actions, i, t, Resume);
    RunKeepsInv(worlds, actions, i);
    ClaimsArrive(worlds, actions, i, worlds[i].tasks[t].c.sessionId);
    assert TaskInv(worlds[i], t, worlds[i].tasks[t]);
    SavedPhase(worlds[i], t, worlds[i].tasks[t]);
  }
}
