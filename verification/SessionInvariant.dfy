/** The invariant of the session handlers, and that every step keeps it. */
module SessionInvariant {
  import opened Wrappers
  import opened Session

  // ---- The invariant ----

  /** The session was started by this task. */
  predicate Owns(w: World, t: TaskId, c: Ctx) {
    c.sessionId in w.starts && c.sessionId in w.starters && w.starters[c.sessionId] == t
  }

  /** Not yet claimed, and the data is still in the task's context. */
  predicate IsOpen(w: World, c: Ctx) {
    c.sessionId in w.starts && c.sessionId !in w.claims && c.sessionData == Some(w.starts[c.sessionId].Data())
  }

  predicate IsClaimed(w: World, c: Ctx, oidc: bool) {
    c.sessionId in w.claims && w.claims[c.sessionId].bridgeData.Oidc? == oidc && c.sessionData.None?
  }

  predicate IsLoaded(w: World, c: Ctx) {
    && c.sessionId in w.landed && c.sessionId in w.claims
    && c == LoadedCtx(c.sessionId, w.claims[c.sessionId])
  }

  /** The user came back through the bridge that claimed the session, with its code if it has one. */
  predicate Confirms(via: Via, bridge: BridgeData) {
    && Fits(via, bridge)
    && (via.Confirmation? ==> bridge.Email? && via.code == bridge.code)
  }

  predicate TaskInv(w: World, t: TaskId, phase: Phase) {
    match phase
    case Testing(p) => p.Valid()
    case Tested(p, ok) => p.Valid() && (ok ==> t in w.accepted && w.accepted[t] == p.LimitInput())
    case Discovering(c) => Owns(w, t, c) && IsOpen(w, c)
    case ClaimingOidc(c) => Owns(w, t, c) && IsClaimed(w, c, true)
    case Fallback(c) => Owns(w, t, c) && (IsOpen(w, c) || IsClaimed(w, c, true))
    case ClaimingEmail(c) => Owns(w, t, c) && IsClaimed(w, c, false)
    case Replied(via, id, reply) => reply.Some? ==> id in w.landed && id in w.claims && reply.value == w.claims[id]
    case Checking(via, c, bridge) => IsLoaded(w, c) && bridge == w.claims[c.sessionId].bridgeData && Fits(via, bridge)
    case Deleting(via, c) => IsLoaded(w, c) && Confirms(via, w.claims[c.sessionId].bridgeData)
    case Signing(via, c) => IsLoaded(w, c) && Confirms(via, w.claims[c.sessionId].bridgeData)
    case Decrementing(via, c) => IsLoaded(w, c) && Confirms(via, w.claims[c.sessionId].bridgeData)
    case Completed(via, c) => IsLoaded(w, c) && Confirms(via, w.claims[c.sessionId].bridgeData)
    case _ => true
  }

  predicate TasksInv(w: World) {
    forall t :: t in w.tasks ==> TaskInv(w, t, w.tasks[t])
  }

  predicate MessageInv(w: World, m: Message) {
    match m
    case IncrAndTestLimits(t, input) =>
      && t in w.tasks && (w.tasks[t].IsOver() || (w.tasks[t].Testing? && input == w.tasks[t].p.LimitInput()))
      && w.mailbox[m] == 1
      && forall id :: id in w.starters ==> w.starters[id] != t
    case SaveSession(t, id, data) =>
      && id in w.claims && w.claims[id] == data
      && id in w.starters && w.starters[id] == t
      && id !in w.landed && w.mailbox[m] == 1
    case GetSession(t, id) => true
    case DeleteSession(t, id) => id in w.landed
    case DecrLimits(t, id, input) => id in w.starts && input == w.starts[id].LimitInput()
  }

  predicate MailInv(w: World) {
    forall m :: m in w.mailbox ==> MessageInv(w, m)
  }

  predicate IdInv(w: World, id: SessionId) {
    && (id in w.starts <==> id in w.starters)
    && (id in w.starts ==>
          && w.starts[id].Valid() && w.starters[id] in w.tasks
          && w.starters[id] in w.accepted && w.accepted[w.starters[id]] == w.starts[id].LimitInput())
    && (id in w.claims ==> id in w.starts && w.claims[id].data == w.starts[id].Data())
    && w.claimCount[id] == (if id in w.claims then 1 else 0)
    && (id in w.landed ==> id in w.claims)
    && (id in w.sessions ==> id in w.landed && w.sessions[id] == w.claims[id])
    && (id in w.deletes ==> id in w.landed && id !in w.sessions)
  }

  ghost predicate IdsInv(w: World) {
    forall id :: IdInv(w, id)
  }

  ghost predicate SessionInv(w: World) {
    TasksInv(w) && MailInv(w) && IdsInv(w)
  }

  // ---- The steps of tasks ----

  predicate Grows<K, V(==)>(m: map<K, V>, m': map<K, V>) {
    forall k :: k in m ==> k in m' && m'[k] == m[k]
  }

  /** What a step of task `t` may do to the records, as other tasks see it. */
  predicate Extends(w: World, w': World, t: TaskId) {
    && (forall u :: u in w.accepted && u != t ==> u in w'.accepted && w'.accepted[u] == w.accepted[u])
    && Grows(w.starts, w'.starts) && Grows(w.starters, w'.starters) && Grows(w.claims, w'.claims)
    && (forall id :: id in w'.claims && id !in w.claims ==> id in w.starters && w.starters[id] == t)
    && w.landed <= w'.landed
  }

  lemma OthersKeepInv(w: World, w': World, t: TaskId, u: TaskId, phase: Phase)
    requires TaskInv(w, u, phase) && Extends(w, w', t) && u != t
    ensures TaskInv(w', u, phase)
  {
  }

  /** A step of one task that changes no other. */
  lemma TasksKept(w: World, w': World, t: TaskId, phase: Phase)
    requires TasksInv(w) && Extends(w, w', t)
    requires w'.tasks == w.tasks[t := phase] && TaskInv(w', t, phase)
    ensures TasksInv(w')
  {
    forall u | u in w'.tasks
      ensures TaskInv(w', u, w'.tasks[u])
    {
      if u != t {
        assert TaskInv(w, u, w.tasks[u]);
        OthersKeepInv(w, w', t, u, w.tasks[u]);
      }
    }
  }

  // What each effect has to satisfy, by what it records.

  predicate IsPlain(w: World, t: TaskId, phase: Phase, sent: Option<Message>) {
    && (t in w.tasks && (w.tasks[t].Testing? || w.tasks[t].IsOver()) ==> phase.IsOver())
    && TaskInv(w, t, phase)
    && (sent.Some? ==> !sent.value.SaveSession? && !sent.value.IncrAndTestLimits? && MessageInv(w, sent.value))
  }

  predicate IsTest(w: World, t: TaskId, phase: Phase, sent: Option<Message>) {
    && t !in w.tasks && phase.Testing? && phase.p.Valid()
    && sent == Some(IncrAndTestLimits(t, phase.p.LimitInput()))
  }

  predicate IsStart(w: World, t: TaskId, phase: Phase, id: SessionId, p: AuthParams) {
    && t in w.tasks && w.tasks[t] == Tested(p, true) && id !in w.starts
    && phase.Discovering? && phase.c.sessionId == id && phase.c.sessionData == Some(p.Data())
  }

  predicate IsClaim(w: World, t: TaskId, phase: Phase, sent: Option<Message>, id: SessionId, data: Stored) {
    && t in w.tasks && !w.tasks[t].Testing? && !w.tasks[t].IsOver()
    && id in w.starts && id in w.starters && w.starters[id] == t && id !in w.claims
    && data.data == w.starts[id].Data()
    && (phase.ClaimingOidc? || phase.ClaimingEmail?)
    && phase.c.sessionId == id && phase.c.sessionData.None? && (phase.ClaimingOidc? <==> data.bridgeData.Oidc?)
    && sent == Some(SaveSession(t, id, data))
  }

  predicate IsSound(w: World, t: TaskId, e: Effect) {
    match e.record
    case NoRecord => IsPlain(w, t, e.phase, e.sent) || IsTest(w, t, e.phase, e.sent)
    case Starting(id, p) => IsStart(w, t, e.phase, id, p) && e.sent.None?
    case Claiming(id, data) => IsClaim(w, t, e.phase, e.sent, id, data)
  }

  /** The messages that were there stay sound when the new one is another and `t` was not waiting for a test. */
  lemma MessageKept(w: World, w': World, t: TaskId, phase: Phase, sent: Option<Message>, m: Message)
    requires m in w.mailbox && MessageInv(w, m)
    requires w'.tasks == w.tasks[t := phase] && w'.mailbox == w.mailbox + Sent(sent) && w'.landed == w.landed
    requires Grows(w.starts, w'.starts) && Grows(w.claims, w'.claims) && Grows(w.starters, w'.starters)
    requires sent == Some(m) ==> !m.SaveSession? && !m.IncrAndTestLimits?
    requires t in w.tasks && (w.tasks[t].Testing? || w.tasks[t].IsOver()) ==> phase.IsOver()
    requires forall id :: id in w'.starters && id !in w.starters ==>
               w'.starters[id] == t && t in w.tasks && w.tasks[t].Tested?
    ensures MessageInv(w', m)
  {
    if sent != Some(m) {
      assert w'.mailbox[m] == w.mailbox[m];
    }
  }

  lemma MailKept(w: World, w': World, t: TaskId, phase: Phase, sent: Option<Message>)
    requires MailInv(w)
    requires w'.tasks == w.tasks[t := phase] && w'.mailbox == w.mailbox + Sent(sent) && w'.landed == w.landed
    requires Grows(w.starts, w'.starts) && Grows(w.claims, w'.claims) && Grows(w.starters, w'.starters)
    requires sent.Some? ==> MessageInv(w', sent.value)
    requires sent.Some? && (sent.value.SaveSession? || sent.value.IncrAndTestLimits?) ==> sent.value !in w.mailbox
    requires t in w.tasks && (w.tasks[t].Testing? || w.tasks[t].IsOver()) ==> phase.IsOver()
    requires forall id :: id in w'.starters && id !in w.starters ==>
               w'.starters[id] == t && t in w.tasks && w.tasks[t].Tested?
    ensures MailInv(w')
  {
    forall m | m in w'.mailbox ensures MessageInv(w', m) {
      if m in w.mailbox {
        assert MessageInv(w, m);
        MessageKept(w, w', t, phase, sent, m);
      }
    }
  }

  predicate IsNewTest(e: Effect) { e.sent.Some? && e.sent.value.IncrAndTestLimits? }

  lemma EffectExtends(w: World, t: TaskId, e: Effect)
    requires IsSound(w, t, e)
    requires e.record.Starting? ==> IdInv(w, e.record.id)
    ensures Extends(w, Apply(w, t, e), t)
  {
  }

  /** The task itself, after its effect. */
  lemma EffectPhase(w: World, t: TaskId, e: Effect)
    requires IsSound(w, t, e)
    requires e.record.Starting? ==> IdInv(w, e.record.id)
    ensures TaskInv(Apply(w, t, e), t, e.phase)
  {
  }

  /** The message it sends, which is a new one if it is a save or a test. */
  lemma EffectMessage(w: World, t: TaskId, e: Effect)
    requires IsSound(w, t, e) && e.sent.Some?
    requires e.sent.value in w.mailbox ==> MessageInv(w, e.sent.value)
    requires e.record.Claiming? ==> IdInv(w, e.record.id)
    requires IsNewTest(e) ==> forall id :: id in w.starters ==> w.starters[id] != t
    ensures MessageInv(Apply(w, t, e), e.sent.value)
    ensures e.sent.value.SaveSession? || e.sent.value.IncrAndTestLimits? ==> e.sent.value !in w.mailbox
  {
  }

  /** The records of one session. */
  lemma EffectId(w: World, t: TaskId, e: Effect, id: SessionId)
    requires IsSound(w, t, e) && IdInv(w, id)
    requires e.record.Starting? ==> TaskInv(w, t, w.tasks[t])
    ensures IdInv(Apply(w, t, e), id)
  {
  }

  lemma EffectKeepsMail(w: World, t: TaskId, e: Effect)
    requires MailInv(w) && IsSound(w, t, e)
    requires e.record.Starting? || e.record.Claiming? ==> IdInv(w, e.record.id)
    requires IsNewTest(e) ==> forall id :: id in w.starters ==> w.starters[id] != t
    ensures MailInv(Apply(w, t, e))
  {
    if e.sent.Some? {
      var m := e.sent.value;
      assert m in w.mailbox ==> MessageInv(w, m);
      EffectMessage(w, t, e);
    }
    MailKept(w, Apply(w, t, e), t, e.phase, e.sent);
  }

  lemma EffectKeepsInv(w: World, t: TaskId, e: Effect)
    requires SessionInv(w) && IsSound(w, t, e)
    ensures SessionInv(Apply(w, t, e))
  {
    assert e.record.Starting? || e.record.Claiming? ==> IdInv(w, e.record.id);
    EffectExtends(w, t, e);
    EffectPhase(w, t, e);
    TasksKept(w, Apply(w, t, e), t, e.phase);
    StartersAreTasks(w);
    EffectKeepsMail(w, t, e);
    assert t in w.tasks ==> TaskInv(w, t, w.tasks[t]);
    EffectKeepsIds(w, t, e);
  }

  lemma EffectKeepsIds(w: World, t: TaskId, e: Effect)
    requires IdsInv(w) && IsSound(w, t, e) && (t in w.tasks ==> TaskInv(w, t, w.tasks[t]))
    ensures IdsInv(Apply(w, t, e))
  {
    forall id ensures IdInv(Apply(w, t, e), id) {
      assert IdInv(w, id);
      EffectId(w, t, e, id);
    }
  }

  lemma StartersAreTasks(w: World)
    requires IdsInv(w)
    ensures forall id :: id in w.starters ==> w.starters[id] in w.tasks
  {
    forall id | id in w.starters ensures w.starters[id] in w.tasks {
      assert IdInv(w, id);
    }
  }

  // Every effect is sound.

  lemma BeginIsSound(w: World, t: TaskId, event: Event, e: Effect)
    requires t !in w.tasks && Begin(t, event) == Some(e)
    ensures IsSound(w, t, e)
  {
  }

  lemma TestedIsSound(w: World, t: TaskId, number: nat, domainOk: bool, e: Effect)
    requires t in w.tasks && w.tasks[t].Tested?
    requires AfterTest(w, w.tasks[t].p, w.tasks[t].ok, number, domainOk) == Some(e)
    ensures IsSound(w, t, e)
  {
  }

  lemma ClaimIsSound(w: World, t: TaskId, c: Ctx, event: Event, e: Effect)
    requires t in w.tasks && (w.tasks[t] == Discovering(c) || w.tasks[t] == Fallback(c)) && TaskInv(w, t, w.tasks[t])
    requires (event.ClaimOidc? && event.bridge.Oidc? && w.tasks[t].Discovering?
              && AfterOidc(t, c, event.bridge) == Some(e))
          || (event.ClaimEmail? && w.tasks[t].Fallback? && AfterEmail(t, c, event.code) == Some(e))
    ensures IsSound(w, t, e)
  {
  }

  lemma ReplyIsSound(w: World, t: TaskId, via: Via, id: SessionId, reply: Option<Stored>, e: Effect)
    requires t in w.tasks && w.tasks[t] == Replied(via, id, reply) && TaskInv(w, t, w.tasks[t])
    requires AfterReply(via, id, reply) == Some(e)
    ensures IsSound(w, t, e)
  {
  }

  lemma CheckIsSound(w: World, t: TaskId, via: Via, c: Ctx, bridge: BridgeData, verified: bool, e: Effect)
    requires t in w.tasks && w.tasks[t] == Checking(via, c, bridge) && TaskInv(w, t, w.tasks[t])
    requires AfterCheck(t, via, c, bridge, verified) == Some(e)
    ensures IsSound(w, t, e)
  {
  }

  /** The input of the decrement is that of the test that let the request pass. */
  lemma InputIsKept(w: World, c: Ctx)
    requires IsLoaded(w, c) && IdInv(w, c.sessionId)
    ensures c.sessionId in w.starts && c.sessionData.Some?
    ensures CompletedInput(c.sessionData.value) == w.starts[c.sessionId].LimitInput()
  {
  }

  lemma SignedPhase(w: World, t: TaskId, via: Via, c: Ctx)
    requires TaskInv(w, t, Signing(via, c))
    ensures IsLoaded(w, c) && TaskInv(w, t, Decrementing(via, c))
  {
  }

  lemma SignIsSound(w: World, t: TaskId, via: Via, c: Ctx, ok: bool, e: Effect)
    requires t in w.tasks && w.tasks[t] == Signing(via, c) && TaskInv(w, t, Signing(via, c)) && IdInv(w, c.sessionId)
    requires AfterDelete(t, via, c, ok) == Some(e)
    ensures IsSound(w, t, e)
  {
    SignedPhase(w, t, via, c);
    InputIsKept(w, c);
    assert e.record.NoRecord?;
    assert ok ==> IsPlain(w, t, Decrementing(via, c), e.sent);
  }

  lemma AwaitIsSound(w: World, t: TaskId, e: Effect)
    requires t in w.tasks && TaskInv(w, t, w.tasks[t]) && AfterAwait(w, t, w.tasks[t]) == Some(e)
    ensures IsSound(w, t, e)
  {
  }

  /** Events that end discovery, or the whole task, without a message. */
  lemma TurnIsSound(w: World, t: TaskId, event: Event, e: Effect)
    requires event.DiscoveryFails? || event.TimeOut? || event.StoreFails? || event.Drop?
    requires t in w.tasks && TaskInv(w, t, w.tasks[t]) && Continue(w, t, w.tasks[t], event) == Some(e)
    ensures IsSound(w, t, e)
  {
  }

  lemma ContinueIsSound(w: World, t: TaskId, event: Event, e: Effect)
    requires t in w.tasks && TaskInv(w, t, w.tasks[t]) && Continue(w, t, w.tasks[t], event) == Some(e)
    requires w.tasks[t].Signing? ==> IdInv(w, w.tasks[t].c.sessionId)
    ensures IsSound(w, t, e)
  {
    var phase := w.tasks[t];
    match event
    case Start(number, domainOk) => TestedIsSound(w, t, number, domainOk, e);
    case ClaimOidc(_) => ClaimIsSound(w, t, phase.c, event, e);
    case ClaimEmail(_) => ClaimIsSound(w, t, phase.c, event, e);
    case Load => ReplyIsSound(w, t, phase.via, phase.id, phase.reply, e);
    case Check(verified) => CheckIsSound(w, t, phase.via, phase.c, phase.bridge, verified, e);
    case Sign(ok) => SignIsSound(w, t, phase.via, phase.c, ok, e);
    case Resume => AwaitIsSound(w, t, e);
    case _ => TurnIsSound(w, t, event, e);
  }

  lemma ReactIsSound(w: World, t: TaskId, event: Event, e: Effect)
    requires SessionInv(w) && React(w, t, event) == Some(e)
    ensures IsSound(w, t, e)
  {
    if t !in w.tasks {
      BeginIsSound(w, t, event, e);
    } else {
      assert TaskInv(w, t, w.tasks[t]);
      assert w.tasks[t].Signing? ==> IdInv(w, w.tasks[t].c.sessionId);
      ContinueIsSound(w, t, event, e);
    }
  }

  // ---- The steps of the store ----

  /** Nothing is recorded but an accepted test of `t` itself, and what has landed. */
  lemma HandledExtends(w: World, m: Message, ok: bool)
    ensures Extends(w, Handled(w, m, ok), m.from)
  {
  }

  lemma AnswerIs(w: World, m: Message, ok: bool, t: TaskId)
    requires t in w.tasks
    ensures t in Answer(w, m, ok)
    ensures t != m.from ==> Answer(w, m, ok)[t] == w.tasks[t]
    ensures var after := Answer(w, m, ok)[t];
            || after == w.tasks[t]
            || (m.IncrAndTestLimits? && w.tasks[t].Testing? && after == Tested(w.tasks[t].p, ok))
            || (m.GetSession? && w.tasks[t].Loading?
                && after == Replied(w.tasks[t].via, m.id, Lookup(w.sessions, m.id)))
  {
  }

  /** The task that is answered. */
  lemma HandledOwn(w: World, m: Message, ok: bool)
    requires MessageInv(w, m) && (m.GetSession? ==> IdInv(w, m.id))
    requires m.from in w.tasks && TaskInv(w, m.from, w.tasks[m.from])
    ensures m.from in Answer(w, m, ok) && TaskInv(Handled(w, m, ok), m.from, Answer(w, m, ok)[m.from])
  {
    AnswerIs(w, m, ok, m.from);
  }

  lemma HandledTask(w: World, m: Message, ok: bool, t: TaskId)
    requires MessageInv(w, m) && (m.GetSession? ==> IdInv(w, m.id))
    requires t in w.tasks && TaskInv(w, t, w.tasks[t])
    ensures t in Answer(w, m, ok) && TaskInv(Handled(w, m, ok), t, Answer(w, m, ok)[t])
  {
    if t == m.from {
      HandledOwn(w, m, ok);
    } else {
      AnswerIs(w, m, ok, t);
      HandledExtends(w, m, ok);
      OthersKeepInv(w, Handled(w, m, ok), m.from, t, w.tasks[t]);
    }
  }

  lemma HandledMessage(w: World, m: Message, ok: bool, other: Message)
    requires m in w.mailbox && MessageInv(w, m) && MessageInv(w, other) && other in Handled(w, m, ok).mailbox
    ensures MessageInv(Handled(w, m, ok), other)
  {
    assert m.SaveSession? || m.IncrAndTestLimits? ==> other != m;
    assert other == m || Handled(w, m, ok).mailbox[other] == w.mailbox[other];
  }

  lemma HandledId(w: World, m: Message, ok: bool, id: SessionId)
    requires MessageInv(w, m) && IdInv(w, id)
    ensures IdInv(Handled(w, m, ok), id)
  {
  }

  lemma HandledKeepsInv(w: World, m: Message, ok: bool)
    requires SessionInv(w) && m in w.mailbox
    ensures SessionInv(Handled(w, m, ok))
  {
    var w' := Handled(w, m, ok);
    assert MessageInv(w, m);
    forall t | t in w'.tasks ensures TaskInv(w', t, w'.tasks[t]) {
      assert m.GetSession? ==> IdInv(w, m.id);
      assert t in w.tasks;
      HandledTask(w, m, ok, t);
    }
    forall other | other in w'.mailbox ensures MessageInv(w', other) {
      assert MessageInv(w, other);
      HandledMessage(w, m, ok, other);
    }
    forall id ensures IdInv(w', id) {
      HandledId(w, m, ok, id);
    }
  }

  lemma ExpireKeepsInv(w: World, id: SessionId)
    requires SessionInv(w)
    ensures SessionInv(w.(sessions := w.sessions - {id}))
  {
    var w' := w.(sessions := w.sessions - {id});
    forall t | t in w'.tasks ensures TaskInv(w', t, w'.tasks[t]) {
      assert TaskInv(w, t, w.tasks[t]);
    }
    forall m | m in w'.mailbox ensures MessageInv(w', m) {
      assert MessageInv(w, m);
    }
    forall i ensures IdInv(w', i) {
      assert IdInv(w, i);
    }
  }

  lemma StepKeepsInv(w: World, a: Action, w': World)
    requires SessionInv(w) && Step(w, a) == Some(w')
    ensures SessionInv(w')
  {
    match a
    case Do(t, event) =>
      var e := React(w, t, event).value;
      ReactIsSound(w, t, event, e);
      EffectKeepsInv(w, t, e);
    case Handle(m, ok) => HandledKeepsInv(w, m, ok);
    case Expire(id) => ExpireKeepsInv(w, id);
  }

  lemma {:induction false} RunKeepsInv(worlds: seq<World>, actions: seq<Action>, i: nat)
    requires IsRun(worlds, actions) && i < |worlds|
    ensures SessionInv(worlds[i])
  {
    if i > 0 {
      RunKeepsInv(worlds, actions, i - 1);
      StepKeepsInv(worlds[i - 1], actions[i - 1], worlds[i]);
    }
  }
}
