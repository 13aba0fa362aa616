/**
 Login sessions. First the request context of `src/web.rs`, which starts, saves and loads a session;
 then the handlers for /auth, /callback and /confirm as a system of steps between their awaits.
 Messages to the store travel on their own: they take effect in any order, each at any later time or
 never, also when the task that sent them was told of a failure, has timed out or is gone.
 */
module Session {
  import opened Wrappers
  import opened EmailAddress
  import opened LimitKey
  import opened SigningAlgorithms

  /** Session identifiers are random; the empty text stands for none. */
  datatype SessionId = NoId | Id(number: nat)

  datatype Uri = Uri(origin: string, path: string)

  datatype ReturnParams = ReturnParams(redirectUri: Uri, formPost: bool, responseErrors: bool, state: string)

  datatype SessionData = SessionData(
    originalIp: string, returnParams: ReturnParams, email: string, emailAddr: EmailAddress, nonce: string,
    signingAlg: SigningAlgorithm)

  datatype BridgeData =
    | Email(code: string)
    | Oidc(origin: string, clientId: string, nonce: string, signingAlg: SigningAlgorithm)

  /** What the store keeps for a session. */
  datatype Stored = Stored(data: SessionData, bridgeData: BridgeData)

  datatype BrokerError = Input | Provider | ProviderInput | ProviderCancelled | Internal | RateLimited | SessionExpired

  // ---- The request context ----

  /** The fields of a context that belong to sessions. */
  datatype Ctx = Ctx(sessionId: SessionId, sessionData: Option<SessionData>, returnParams: Option<ReturnParams>)

  const NEW_CTX := Ctx(NoId, None, None)

  /** A session in memory: it has an identifier and data, and is not yet stored. */
  function Started(c: Ctx, id: SessionId, email: string, emailAddr: EmailAddress, nonce: string, alg: SigningAlgorithm,
                   ip: string): Ctx
    requires c.returnParams.Some?
  {
    c.(sessionId := id, sessionData := Some(SessionData(ip, c.returnParams.value, email, emailAddr, nonce, alg)))
  }

  /** Saving takes the data out of the context, so it can be done once. */
  function Saved(c: Ctx, bridge: BridgeData): (Ctx, Option<Stored>) {
    if c.sessionData.None? then (c, None)
    else (c.(sessionData := None), Some(Stored(c.sessionData.value, bridge)))
  }

  function LoadedCtx(id: SessionId, stored: Stored): Ctx {
    Ctx(id, Some(stored.data), Some(stored.data.returnParams))
  }

  class Context {
    var sessionId: SessionId
    var sessionData: Option<SessionData>
    var returnParams: Option<ReturnParams>

    constructor ()
      ensures View() == NEW_CTX
    {
      sessionId, sessionData, returnParams := NoId, None, None;
    }

    function View(): Ctx
      reads this
    {
      Ctx(sessionId, sessionData, returnParams)
    }

    /** The first two conditions are asserted by the source, the third one is an `expect`. */
    method StartSession(id: SessionId, email: string, emailAddr: EmailAddress, nonce: string, alg: SigningAlgorithm,
                        ip: string)
      requires sessionId.NoId? && sessionData.None? && returnParams.Some?
      modifies this
      ensures View() == Started(old(View()), id, email, emailAddr, nonce, alg, ip)
    {
      sessionId := id;
      sessionData := Some(SessionData(ip, returnParams.value, email, emailAddr, nonce, alg));
    }

    /** `sent` is the session that goes to the store, and `reply` the store's answer to it, if there is one. */
    method SaveSession(bridge: BridgeData, reply: Result<(), string>)
      returns (sent: Option<Stored>, r: Result<bool, BrokerError>)
      modifies this
      ensures (View(), sent) == Saved(old(View()), bridge)
      ensures r == if sent.None? then Ok(false) else if reply.Err? then Err(Internal) else Ok(true)
    {
      var data := sessionData;
      sessionData := None;
      if data.None? {
        return None, Ok(false);
      }
      sent := Some(Stored(data.value, bridge));
      if reply.Err? {
        return sent, Err(Internal);
      }
      return sent, Ok(true);
    }

    /** `reply` is the answer of the store. The conditions are asserted by the source. */
    method LoadSession(id: SessionId, reply: Result<Option<Stored>, string>)
      returns (r: Result<BridgeData, BrokerError>)
      requires sessionId.NoId? && sessionData.None? && returnParams.None?
      modifies this
      ensures reply.Err? ==> r == Err(Internal)
      ensures reply == Ok(None) ==> r == Err(SessionExpired)
      ensures r.Err? ==> View() == old(View())
      ensures reply.Ok? && reply.value.Some? ==>
                r == Ok(reply.value.value.bridgeData) && View() == LoadedCtx(id, reply.value.value)
    {
      if reply.Err? {
        return Err(Internal);
      }
      if reply.value.None? {
        return Err(SessionExpired);
      }
      var Stored(data, bridge) := reply.value.value;
      returnParams := Some(data.returnParams);
      sessionId := id;
      sessionData := Some(data);
      return Ok(bridge);
    }
  }

  // ---- The handlers, as phases of a task ----

  type TaskId = nat

  /** The parameters of a request to /auth that has passed local validation. */
  datatype AuthParams = AuthParams(
    returnParams: ReturnParams, clientId: string, email: string, emailAddr: EmailAddress, nonce: string,
    signingAlg: SigningAlgorithm, ip: string)
  {
    /** The part of the validation that later steps rely on. */
    predicate Valid() { clientId == returnParams.redirectUri.origin }

    function LimitInput(): LimitInput { LimitKey.LimitInput(emailAddr, clientId, ip) }

    function Data(): SessionData { SessionData(ip, returnParams, email, emailAddr, nonce, signingAlg) }
  }

  /** How a user comes back: from the provider, or with the code from the mail. */
  datatype Via = Callback | Confirmation(code: string)

  predicate Fits(via: Via, bridge: BridgeData) { via.Callback? <==> bridge.Oidc? }

  /** The input of the decrement, as `complete_auth` builds it from the session. */
  function CompletedInput(data: SessionData): LimitInput {
    LimitKey.LimitInput(data.emailAddr, data.returnParams.redirectUri.origin, data.originalIp)
  }

  datatype Phase =
    // /auth
    | Testing(p: AuthParams)
    | Tested(p: AuthParams, ok: bool)
    | Discovering(c: Ctx)
    | ClaimingOidc(c: Ctx)
    | Fallback(c: Ctx)
    | ClaimingEmail(c: Ctx)
    | Answered
    // /callback and /confirm
    | Loading(via: Via, id: SessionId)
    | Replied(via: Via, id: SessionId, reply: Option<Stored>)
    | Checking(via: Via, c: Ctx, bridge: BridgeData)
    // complete_auth
    | Deleting(via: Via, c: Ctx)
    | Signing(via: Via, c: Ctx)
    | Decrementing(via: Via, c: Ctx)
    | Completed(via: Via, c: Ctx)
    | Failed(error: BrokerError)
    | Gone
  {
    /** The task has ended without success; a message of its own may still be under way. */
    predicate IsOver() { Failed? || Gone? }

    /** A message to the store has not been answered. */
    predicate Awaits() { Testing? || ClaimingOidc? || ClaimingEmail? || Loading? || Deleting? || Decrementing? }
  }

  datatype Message =
    | IncrAndTestLimits(from: TaskId, input: LimitInput)
    | SaveSession(from: TaskId, id: SessionId, data: Stored)
    | GetSession(from: TaskId, id: SessionId)
    | DeleteSession(from: TaskId, id: SessionId)
    | DecrLimits(from: TaskId, id: SessionId, input: LimitInput)

  /**
   The tasks, the messages under way and the stored sessions. The other fields only record what has
   happened: accepted tests, started sessions, claims, saves and deletes that took effect, tasks that
   were answered with a session, and tasks that sent a decrement.
   */
  datatype World = World(
    tasks: map<TaskId, Phase>,
    mailbox: multiset<Message>,
    sessions: map<SessionId, Stored>,
    accepted: map<TaskId, LimitInput>,
    starts: map<SessionId, AuthParams>,
    starters: map<SessionId, TaskId>,
    claims: map<SessionId, Stored>,
    claimCount: multiset<SessionId>,
    landed: set<SessionId>,
    deletes: set<SessionId>,
    loaded: map<TaskId, SessionId>,
    completed: map<TaskId, SessionId>,
    decrements: multiset<SessionId>)

  /** What moves a task on: its own code, the network or the clock. */
  datatype Event =
    | Request(p: AuthParams)
    | Start(number: nat, domainOk: bool)
    | ClaimOidc(bridge: BridgeData)
    | DiscoveryFails(error: BrokerError)
    | TimeOut
    | ClaimEmail(code: string)
    | Return(via: Via, id: SessionId)
    | Load
    | Check(verified: bool)
    | Sign(ok: bool)
    | Resume
    | StoreFails
    | Drop

  datatype Action = Do(task: TaskId, event: Event) | Handle(message: Message, ok: bool) | Expire(id: SessionId)

  datatype Record = NoRecord | Starting(id: SessionId, p: AuthParams) | Claiming(id: SessionId, data: Stored)

  /** What a task does between two awaits: its next phase, a message, and what is recorded of it. */
  datatype Effect = Effect(phase: Phase, sent: Option<Message>, record: Record)

  function Turn(phase: Phase): Option<Effect> { Some(Effect(phase, None, NoRecord)) }

  function Sending(phase: Phase, m: Message): Option<Effect> { Some(Effect(phase, Some(m), NoRecord)) }

  /** `save_session` with data in the context. */
  function Saving(phase: Phase, t: TaskId, id: SessionId, stored: Stored): Option<Effect> {
    Some(Effect(phase, Some(SaveSession(t, id, stored)), Claiming(id, stored)))
  }

  /** After the test: refuse, or start a session under a new identifier. */
  function AfterTest(w: World, p: AuthParams, ok: bool, number: nat, domainOk: bool): Option<Effect> {
    if !ok then Turn(Failed(RateLimited))
    else if !domainOk then Turn(Failed(Input))
    else if Id(number) in w.starts then None
    else
      var c := NEW_CTX.(returnParams := Some(p.returnParams));
      Some(Effect(Discovering(Started(c, Id(number), p.email, p.emailAddr, p.nonce, p.signingAlg, p.ip)),
                  None, Starting(Id(number), p)))
  }

  /** The claim of the OpenID Connect bridge; when it finds nothing to save it cancels. */
  function AfterOidc(t: TaskId, c: Ctx, bridge: BridgeData): Option<Effect> {
    var (rest, sent) := Saved(c, bridge);
    if sent.None? then Turn(Fallback(rest)) else Saving(ClaimingOidc(rest), t, c.sessionId, sent.value)
  }

  /** The claim of the email bridge, which expects to find something to save. */
  function AfterEmail(t: TaskId, c: Ctx, code: string): Option<Effect> {
    var (rest, sent) := Saved(c, Email(code));
    if sent.None? then Turn(Failed(Internal)) else Saving(ClaimingEmail(rest), t, c.sessionId, sent.value)
  }

  /** `load_session` and the check of the bridge's type. */
  function AfterReply(via: Via, id: SessionId, reply: Option<Stored>): Option<Effect> {
    if reply.None? then Turn(Failed(SessionExpired))
    else if !Fits(via, reply.value.bridgeData) then Turn(Failed(ProviderInput))
    else Turn(Checking(via, LoadedCtx(id, reply.value), reply.value.bridgeData))
  }

  /** The code must be the one mailed; what a provider's token is checked for is `verified`. */
  function AfterCheck(t: TaskId, via: Via, c: Ctx, bridge: BridgeData, verified: bool): Option<Effect> {
    var passes := if bridge.Email? && via.Confirmation? then via.code == bridge.code else verified;
    if !passes then Turn(Failed(ProviderInput)) else Sending(Deleting(via, c), DeleteSession(t, c.sessionId))
  }

  /** The token is signed after the delete was answered and before the decrement. */
  function AfterDelete(t: TaskId, via: Via, c: Ctx, ok: bool): Option<Effect> {
    if c.sessionData.None? then None
    else if !ok then Turn(Failed(Internal))
    else Sending(Decrementing(via, c), DecrLimits(t, c.sessionId, CompletedInput(c.sessionData.value)))
  }

  /** What a phase waits for, and the phase that follows. */
  function Awaited(w: World, t: TaskId, phase: Phase): Option<(Message, Phase)> {
    match phase
    case ClaimingOidc(c) =>
      if c.sessionId in w.claims then Some((SaveSession(t, c.sessionId, w.claims[c.sessionId]), Answered)) else None
    case ClaimingEmail(c) =>
      if c.sessionId in w.claims then Some((SaveSession(t, c.sessionId, w.claims[c.sessionId]), Answered)) else None
    case Deleting(via, c) => Some((DeleteSession(t, c.sessionId), Signing(via, c)))
    case Decrementing(via, c) =>
      if c.sessionData.None? then None
      else Some((DecrLimits(t, c.sessionId, CompletedInput(c.sessionData.value)), Completed(via, c)))
    case _ => None
  }

  /** A task goes on once the store has handled its message. */
  function AfterAwait(w: World, t: TaskId, phase: Phase): Option<Effect> {
    var awaited := Awaited(w, t, phase);
    if awaited.None? || awaited.value.0 in w.mailbox then None else Turn(awaited.value.1)
  }

  /** A new task: /auth up to its test of the limits, /callback or /confirm up to its load. */
  function Begin(t: TaskId, event: Event): Option<Effect> {
    match event
    case Request(p) => if p.Valid() then Sending(Testing(p), IncrAndTestLimits(t, p.LimitInput())) else None
    case Return(via, id) => Sending(Loading(via, id), GetSession(t, id))
    case _ => None
  }

  /** A task that is under way. The timeout may strike at every await of discovery, also during the claim. */
  function Continue(w: World, t: TaskId, phase: Phase, event: Event): Option<Effect> {
    match event
    case Start(number, domainOk) => if phase.Tested? then AfterTest(w, phase.p, phase.ok, number, domainOk) else None
    case ClaimOidc(bridge) => if phase.Discovering? && bridge.Oidc? then AfterOidc(t, phase.c, bridge) else None
    case DiscoveryFails(error) =>
      if !phase.Discovering? then None
      else if error.Provider? || error.ProviderCancelled? then Turn(Fallback(phase.c))
      else Turn(Failed(error))
    case TimeOut => if phase.Discovering? || phase.ClaimingOidc? then Turn(Fallback(phase.c)) else None
    case ClaimEmail(code) => if phase.Fallback? then AfterEmail(t, phase.c, code) else None
    case Load => if phase.Replied? then AfterReply(phase.via, phase.id, phase.reply) else None
    case Check(verified) => if phase.Checking? then AfterCheck(t, phase.via, phase.c, phase.bridge, verified) else None
    case Sign(ok) => if phase.Signing? then AfterDelete(t, phase.via, phase.c, ok) else None
    case Resume => AfterAwait(w, t, phase)
    case StoreFails => if phase.Awaits() then Turn(Failed(Internal)) else None
    case Drop => Turn(Gone)
    case _ => None
  }

  function React(w: World, t: TaskId, event: Event): Option<Effect> {
    if t in w.tasks then Continue(w, t, w.tasks[t], event) else Begin(t, event)
  }

  function Sent(sent: Option<Message>): multiset<Message> {
    if sent.None? then multiset{} else multiset{sent.value}
  }

  function Apply(w: World, t: TaskId, e: Effect): World {
    w.(tasks := w.tasks[t := e.phase],
       mailbox := w.mailbox + Sent(e.sent),
       starts := if e.record.Starting? then w.starts[e.record.id := e.record.p] else w.starts,
       starters := if e.record.Starting? then w.starters[e.record.id := t] else w.starters,
       claims := if e.record.Claiming? then w.claims[e.record.id := e.record.data] else w.claims,
       claimCount := if e.record.Claiming? then w.claimCount + multiset{e.record.id} else w.claimCount,
       completed := if SendsDecrement(e) then w.completed[t := e.sent.value.id] else w.completed,
       decrements := if SendsDecrement(e) then w.decrements + multiset{e.sent.value.id} else w.decrements)
  }

  predicate SendsDecrement(e: Effect) { e.sent.Some? && e.sent.value.DecrLimits? }

  /** The task that asked still waits for the session. */
  predicate IsWaiting(w: World, t: TaskId, id: SessionId) {
    t in w.tasks && w.tasks[t].Loading? && w.tasks[t].id == id
  }

  /** The answer to a task, unless it has ended. `ok` is the verdict on the limits. */
  function Answer(w: World, m: Message, ok: bool): map<TaskId, Phase> {
    match m
    case IncrAndTestLimits(t, _) =>
      if t in w.tasks && w.tasks[t].Testing? then w.tasks[t := Tested(w.tasks[t].p, ok)] else w.tasks
    case GetSession(t, id) =>
      if IsWaiting(w, t, id) then w.tasks[t := Replied(w.tasks[t].via, id, Lookup(w.sessions, id))] else w.tasks
    case _ => w.tasks
  }

  function SessionsAfter(sessions: map<SessionId, Stored>, m: Message): map<SessionId, Stored> {
    match m
    case SaveSession(_, id, data) => sessions[id := data]
    case DeleteSession(_, id) => sessions - {id}
    case _ => sessions
  }

  /** The store handles a message. */
  function Handled(w: World, m: Message, ok: bool): World {
    w.(tasks := Answer(w, m, ok),
       mailbox := w.mailbox - multiset{m},
       sessions := SessionsAfter(w.sessions, m),
       accepted := if m.IncrAndTestLimits? && ok then w.accepted[m.from := m.input] else w.accepted,
       landed := if m.SaveSession? then w.landed + {m.id} else w.landed,
       deletes := if m.DeleteSession? then w.deletes + {m.id} else w.deletes,
       loaded := if m.GetSession? && IsWaiting(w, m.from, m.id) && m.id in w.sessions
                 then w.loaded[m.from := m.id] else w.loaded)
  }

  function Step(w: World, a: Action): Option<World> {
    match a
    case Do(t, event) => var e := React(w, t, event); if e.None? then None else Some(Apply(w, t, e.value))
    case Handle(m, ok) => if m in w.mailbox then Some(Handled(w, m, ok)) else None
    case Expire(id) => Some(w.(sessions := w.sessions - {id}))
  }

  const EMPTY_WORLD: World :=
    World(map[], multiset{}, map[], map[], map[], map[], map[], multiset{}, {}, {}, map[], map[], multiset{})

  predicate IsInit(w: World) {
    w == EMPTY_WORLD
  }

  predicate IsRun(worlds: seq<World>, actions: seq<Action>) {
    && |worlds| == |actions| + 1
    && IsInit(worlds[0])
    && forall i {:trigger actions[i]} :: 0 <= i < |actions| ==> Step(worlds[i], actions[i]) == Some(worlds[i + 1])
  }
}
