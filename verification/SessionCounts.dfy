/**
 How often one session can be completed. Nothing stops several tasks from loading a session before one
 of them deletes it, and each of them sends a decrement of its own; but there are no more decrements
 than tasks that were answered with the session, and the delete puts an end to those.
 */
module SessionCounts {
  import opened Wrappers
  import opened Session
  import opened SessionTheorems

  // ---- The invariant ----

  predicate HasLoaded(w: World, t: TaskId, id: SessionId) {
    t in w.loaded && w.loaded[t] == id
  }

  /** Whether the task has been answered with a session, and has counted it down, by its phase. */
  predicate PhaseCount(w: World, t: TaskId, phase: Phase) {
    match phase
    case Replied(_, id, reply) => t !in w.completed && if reply.Some? then HasLoaded(w, t, id) else t !in w.loaded
    case Checking(_, c, _) => t !in w.completed && HasLoaded(w, t, c.sessionId)
    case Deleting(_, c) => t !in w.completed && HasLoaded(w, t, c.sessionId)
    case Signing(_, c) => t !in w.completed && HasLoaded(w, t, c.sessionId)
    case Decrementing(_, c) => HasLoaded(w, t, c.sessionId)
    case Completed(_, c) => HasLoaded(w, t, c.sessionId)
    case Failed(_) => true
    case Gone => true
    case _ => t !in w.completed && t !in w.loaded
  }

  predicate TaskCount(w: World, t: TaskId) {
    && (t in w.tasks ==> PhaseCount(w, t, w.tasks[t]))
    && (t !in w.tasks ==> t !in w.loaded && t !in w.completed)
    && (t in w.completed ==> HasLoaded(w, t, w.completed[t]))
  }

  /** The tasks that were answered with the session, and those that counted it down. */
  function Loaders(w: World, id: SessionId): set<TaskId> {
    set t | t in w.loaded && w.loaded[t] == id
  }

  function Completers(w: World, id: SessionId): set<TaskId> {
    set t | t in w.completed && w.completed[t] == id
  }

  ghost predicate CountInv(w: World) {
    (forall t :: TaskCount(w, t)) && (forall id :: w.decrements[id] == |Completers(w, id)|)
  }

  // ---- Steps keep it ----

  /** A decrement is the one of a task that has loaded the session and has not yet completed it. */
  predicate IsCounted(w: World, t: TaskId, e: Effect) {
    if SendsDecrement(e)
    then e.phase.Decrementing? && e.phase.c.sessionId == e.sent.value.id
         && t !in w.completed && HasLoaded(w, t, e.sent.value.id)
    else PhaseCount(w, t, e.phase)
  }

  lemma ReactionIsCounted(w: World, t: TaskId, event: Event, e: Effect)
    requires TaskCount(w, t) && React(w, t, event) == Some(e)
    ensures IsCounted(w, t, e)
  {
  }

  lemma CompletedBy(w: World, t: TaskId, e: Effect, id: SessionId)
    requires IsCounted(w, t, e)
    ensures Completers(Apply(w, t, e), id) ==
            if SendsDecrement(e) && e.sent.value.id == id then Completers(w, id) + {t} else Completers(w, id)
    ensures SendsDecrement(e) ==> t !in Completers(w, id)
  {
  }

  lemma EffectKeepsTask(w: World, t: TaskId, e: Effect, u: TaskId)
    requires TaskCount(w, u) && IsCounted(w, t, e)
    ensures TaskCount(Apply(w, t, e), u)
  {
  }

  lemma EffectKeepsCounts(w: World, t: TaskId, e: Effect)
    requires CountInv(w) && IsCounted(w, t, e)
    ensures CountInv(Apply(w, t, e))
  {
    var w' := Apply(w, t, e);
    forall u ensures TaskCount(w', u) {
      assert TaskCount(w, u);
      EffectKeepsTask(w, t, e, u);
    }
    forall id ensures w'.decrements[id] == |Completers(w', id)| {
      CompletedBy(w, t, e, id);
    }
  }

  lemma HandledKeepsTask(w: World, m: Message, ok: bool, t: TaskId)
    requires TaskCount(w, t)
    ensures TaskCount(Handled(w, m, ok), t)
  {
  }

  lemma StepKeepsCounts(w: World, a: Action, w': World)
    requires CountInv(w) && Step(w, a) == Some(w')
    ensures CountInv(w')
  {
    match a
    case Do(t, event) =>
      var e := React(w, t, event).value;
      assert TaskCount(w, t);
      ReactionIsCounted(w, t, event, e);
      EffectKeepsCounts(w, t, e);
    case Handle(m, ok) =>
      forall t ensures TaskCount(w', t) {
        assert TaskCount(w, t);
        HandledKeepsTask(w, m, ok, t);
      }
      assert forall id :: Completers(w', id) == Completers(w, id);
    case Expire(_) =>
      forall t ensures TaskCount(w', t) {
        assert TaskCount(w, t);
      }
      assert forall id :: Completers(w', id) == Completers(w, id);
  }

  lemma {:induction false} RunKeepsCounts(worlds: seq<World>, actions: seq<Action>, i: nat)
    requires IsRun(worlds, actions) && i < |worlds|
    ensures CountInv(worlds[i])
  {
    if i == 0 {
      assert forall id :: Completers(worlds[0], id) == {};
    } else {
      RunKeepsCounts(worlds, actions, i - 1);
      StepKeepsCounts(worlds[i - 1], actions[i - 1], worlds[i]);
    }
  }

  // ---- The bound ----

  lemma SubsetSize<T>(a: set<T>, b: set<T>)
    requires a <= b
    ensures |a| <= |b|
  {
    assert b == a + (b - a);
  }

  /** At any time a session has no more decrements than tasks that were answered with it. */
  lemma NoMoreDecrementsThanLoads(worlds: seq<World>, actions: seq<Action>, i: nat, id: SessionId)
    requires IsRun(worlds, actions) && i < |worlds|
    ensures worlds[i].decrements[id] <= |Loaders(worlds[i], id)|
  {
    RunKeepsCounts(worlds, actions, i);
    forall t | t in Completers(worlds[i], id) ensures t in Loaders(worlds[i], id) {
      assert TaskCount(worlds[i], t);
    }
    SubsetSize(Completers(worlds[i], id), Loaders(worlds[i], id));
  }

  /** No task is answered with a session that is not stored. */
  lemma LoadersStay(w: World, a: Action, w': World, id: SessionId)
    requires CountInv(w) && Step(w, a) == Some(w') && id !in w.sessions
    ensures Loaders(w', id) == Loaders(w, id)
  {
    if a.Handle? && a.message.GetSession? && IsWaiting(w, a.message.from, a.message.id) {
      assert TaskCount(w, a.message.from);
    }
  }

  lemma LoadersStayInStep(worlds: seq<World>, actions: seq<Action>, i: nat, j: nat, id: SessionId)
    requires IsRun(worlds, actions) && i <= j < |actions| && id in worlds[i].deletes
    ensures Loaders(worlds[j + 1], id) == Loaders(worlds[j], id)
  {
    DeletedStays(worlds, actions, i, j, id);
    RunKeepsCounts(worlds, actions, j);
    LoadersStay(worlds[j], actions[j], worlds[j + 1], id);
  }

  lemma {:induction false} LoadersStayInRun(worlds: seq<World>, actions: seq<Action>, i: nat, j: nat, id: SessionId)
    requires IsRun(worlds, actions) && i <= j < |worlds| && id in worlds[i].deletes
    ensures Loaders(worlds[j], id) == Loaders(worlds[i], id)
  {
    if i < j {
      LoadersStayInRun(worlds, actions, i, j - 1, id);
      LoadersStayInStep(worlds, actions, i, j - 1, id);
    }
  }

  /**
   The decrements that a session ever gets number at most the tasks that were answered with it by the
   time any of its deletes, such as the first one, took effect.
   */
  lemma DecrementsAreBounded(worlds: seq<World>, actions: seq<Action>, i: nat, j: nat, id: SessionId)
    requires IsRun(worlds, actions) && i <= j < |worlds| && id in worlds[i].deletes
    ensures worlds[j].decrements[id] <= |Loaders(worlds[i], id)|
  {
    NoMoreDecrementsThanLoads(worlds, actions, j, id);
    LoadersStayInRun(worlds, actions, i, j, id);
  }

  // ---- More than one ----

  /** A session waits for the code from the mail. */
  predicate IsMailed(w: World, id: SessionId, data: SessionData, code: string) {
    id in w.sessions && w.sessions[id] == Stored(data, Email(code))
  }

  lemma SessionIsMailed(p: AuthParams, code: string) returns (worlds: seq<World>, actions: seq<Action>)
    requires p.Valid()
    ensures IsRun(worlds, actions) && |actions| == 6 && IsMailed(worlds[6], Id(0), p.Data(), code)
    ensures worlds[6].tasks.Keys == {0} && worlds[6].mailbox == multiset{} && worlds[6].decrements == multiset{}
  {
    var c: Ctx;
    worlds, actions, c := DiscoveryBegins(p);
    worlds, actions := Continues(worlds, actions, 0, DiscoveryFails(ProviderCancelled), Turn(Fallback(c)).value);
    assert worlds[4].mailbox == multiset{} && worlds[4].decrements == multiset{};
    var e := AfterEmail(0, c, code).value;
    worlds, actions := Continues(worlds, actions, 0, ClaimEmail(code), e);
    var m := e.sent.value;
    assert worlds[5].mailbox == multiset{m} && worlds[5].decrements == multiset{};
    worlds, actions := Handles(worlds, actions, m);
    assert multiset{m} - multiset{m} == multiset{};
  }

  /** A task asks for the session and is answered. */
  lemma ReturnsAndIsAnswered(worlds: seq<World>, actions: seq<Action>, t: TaskId, via: Via, stored: Stored)
    returns (longer: seq<World>, more: seq<Action>)
    requires IsRun(worlds, actions) && t !in worlds[|actions|].tasks
    requires Id(0) in worlds[|actions|].sessions && worlds[|actions|].sessions[Id(0)] == stored
    ensures IsRun(longer, more)
    ensures var w, w' := worlds[|actions|], longer[|more|];
            && w'.tasks == w.tasks[t := Replied(via, Id(0), Some(stored))]
            && w'.mailbox == w.mailbox && w'.sessions == w.sessions && w'.decrements == w.decrements
  {
    longer, more := Continues(worlds, actions, t, Return(via, Id(0)), Begin(t, Return(via, Id(0))).value);
    longer, more := Handles(longer, more, GetSession(t, Id(0)));
  }

  /** A task returns with the code, up to the delete that it sends. */
  lemma ReturnsWithCode(worlds: seq<World>, actions: seq<Action>, t: TaskId, data: SessionData, code: string)
    returns (longer: seq<World>, more: seq<Action>)
    requires IsRun(worlds, actions) && IsMailed(worlds[|actions|], Id(0), data, code) && t !in worlds[|actions|].tasks
    ensures IsRun(longer, more)
    ensures var w, w' := worlds[|actions|], longer[|more|];
            && w'.tasks == w.tasks[t := Awaiting(data, code)]
            && w'.mailbox == w.mailbox + multiset{DeleteSession(t, Id(0))}
            && w'.sessions == w.sessions && w'.decrements == w.decrements
  {
    var via, stored := Confirmation(code), Stored(data, Email(code));
    longer, more := ReturnsAndIsAnswered(worlds, actions, t, via, stored);
    longer, more := Continues(longer, more, t, Load, AfterReply(via, Id(0), Some(stored)).value);
    var e := AfterCheck(t, via, LoadedCtx(Id(0), stored), Email(code), true).value;
    longer, more := Continues(longer, more, t, Check(true), e);
  }

  function Awaiting(data: SessionData, code: string): Phase {
    Deleting(Confirmation(code), LoadedCtx(Id(0), Stored(data, Email(code))))
  }

  /** The delete is handled, and the task goes on to count the session down. */
  lemma CountsDown(worlds: seq<World>, actions: seq<Action>, t: TaskId, data: SessionData, code: string)
    returns (longer: seq<World>, more: seq<Action>)
    requires IsRun(worlds, actions) && t in worlds[|actions|].tasks
    requires worlds[|actions|].tasks[t] == Awaiting(data, code)
    requires worlds[|actions|].mailbox[DeleteSession(t, Id(0))] == 1
    ensures IsRun(longer, more)
    ensures var w, w' := worlds[|actions|], longer[|more|];
            && (forall u :: u in w.tasks && u != t ==> u in w'.tasks && w'.tasks[u] == w.tasks[u])
            && (forall m: Message :: m.DeleteSession? && m.from != t ==> w'.mailbox[m] == w.mailbox[m])
            && w'.decrements == w.decrements + multiset{Id(0)}
  {
    var w, via, c := worlds[|actions|], Confirmation(code), LoadedCtx(Id(0), Stored(data, Email(code)));
    var m := DeleteSession(t, Id(0));
    longer, more := Handles(worlds, actions, m);
    var w1 := longer[|more|];
    assert w1.tasks == w.tasks && m !in w1.mailbox && w1.decrements == w.decrements;
    longer, more := Continues(longer, more, t, Resume, Turn(Signing(via, c)).value);
    longer, more := Continues(longer, more, t, Sign(true), AfterDelete(t, via, c, true).value);
  }

  /** The tasks behind `lo` and up to `hi` have sent their deletes. */
  predicate AllAwait(w: World, lo: nat, hi: nat, phase: Phase) {
    forall t :: lo < t <= hi ==> t in w.tasks && w.tasks[t] == phase && w.mailbox[DeleteSession(t, Id(0))] == 1
  }

  lemma {:induction false} ManyReturn(p: AuthParams, code: string, n: nat)
    returns (worlds: seq<World>, actions: seq<Action>)
    requires p.Valid()
    ensures IsRun(worlds, actions) && IsMailed(worlds[|actions|], Id(0), p.Data(), code)
    ensures AllAwait(worlds[|actions|], 0, n, Awaiting(p.Data(), code)) && worlds[|actions|].decrements == multiset{}
    ensures forall t :: t in worlds[|actions|].tasks ==> t <= n
    ensures forall t :: n < t ==> worlds[|actions|].mailbox[DeleteSession(t, Id(0))] == 0
  {
    if n == 0 {
      worlds, actions := SessionIsMailed(p, code);
    } else {
      worlds, actions := ManyReturn(p, code, n - 1);
      worlds, actions := ReturnsWithCode(worlds, actions, n, p.Data(), code);
    }
  }

  lemma {:induction false} ManyCountDown(p: AuthParams, code: string, k: nat, n: nat)
    returns (worlds: seq<World>, actions: seq<Action>)
    requires p.Valid() && k <= n
    ensures IsRun(worlds, actions) && AllAwait(worlds[|actions|], k, n, Awaiting(p.Data(), code))
    ensures worlds[|actions|].decrements[Id(0)] == k
  {
    if k == 0 {
      worlds, actions := ManyReturn(p, code, n);
    } else {
      worlds, actions := ManyCountDown(p, code, k - 1, n);
      worlds, actions := CountsDown(worlds, actions, k, p.Data(), code);
    }
  }

  /** The bound can be reached: for every number there is a run in which one session gets as many decrements. */
  lemma AnyNumberOfDecrements(p: AuthParams, code: string, n: nat) returns (worlds: seq<World>, actions: seq<Action>)
    requires p.Valid()
    ensures IsRun(worlds, actions) && worlds[|actions|].decrements[Id(0)] == n
  {
    worlds, actions := ManyCountDown(p, code, n, n);
  }
}
