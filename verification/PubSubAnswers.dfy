/**
 Every `subscribe` call is answered: who waits, who is handed a receiver by which step, and what the
 connection comes to when nothing is under way any more.
 */
module PubSubAnswers {
  import opened Wrappers
  import opened PubSub
  import opened PubSubInvariant
  import opened PubSubTheorems

  // ---- The invariant ----

  /** The call waits for the confirmation of its channel. */
  predicate IsWaiting(n: Net, r: ReplyId) {
    && r in n.asked && PhaseOf(n.client, n.asked[r]) == Waiting
    && r in n.client.subs[n.asked[r]].pending.value
  }

  /** Every call was answered or waits, and not both. */
  predicate CallInv(n: Net, r: ReplyId) {
    && (r in n.asked ==> (r in n.handed <==> !IsWaiting(n, r)))
    && (r in n.handed ==> r in n.asked)
    && (r in n.receivers ==> r in n.handed)
  }

  ghost predicate CallsInv(n: Net) {
    forall r :: CallInv(n, r)
  }

  // ---- One step, one call ----

  /** The step neither asks nor confirms, and drops no channel that somebody waits for. */
  lemma CallKept(n: Net, n': Net, r: ReplyId)
    requires CallInv(n, r) && n'.asked == n.asked && n'.handed == n.handed && n'.receivers.Keys <= n.receivers.Keys
    requires forall chan :: PhaseOf(n.client, chan) == Waiting ==>
               chan in n'.client.subs && n'.client.subs[chan] == n.client.subs[chan]
    requires forall chan :: PhaseOf(n'.client, chan) == Waiting ==>
               chan in n.client.subs && n'.client.subs[chan] == n.client.subs[chan]
    ensures CallInv(n', r)
  {
  }

  /** A first call, and the calls behind it, wait; a call for a confirmed channel is answered at once. */
  lemma AskKeepsCall(n: Net, chan: Chan, reply: ReplyId, r: ReplyId)
    requires CallInv(n, r) && CallInv(n, reply) && reply !in n.asked && PendingInv(n, chan)
    ensures CallInv(StepAsk(n, chan, reply), r)
    ensures reply in StepAsk(n, chan, reply).handed <==> PhaseOf(n.client, chan) == Live
  {
    var n' := StepAsk(n, chan, reply);
    var (_, effects) := OnCommand(n.client, chan, reply);
    HandOutResult(n.receivers, effects.replies, Receiver(chan, effects.tx, Delivered(n, chan), []), r);
    assert n'.asked == n.asked[reply := chan];
    assert forall c :: c != chan ==> PhaseOf(n'.client, c) == PhaseOf(n.client, c);
    assert forall c :: c != chan && c in n.client.subs ==> n'.client.subs[c] == n.client.subs[c];
  }

  /** A confirmation answers exactly the calls that wait for its channel. */
  lemma ConfirmKeepsCall(n: Net, chan: Chan, r: ReplyId)
    requires n.events != [] && n.events[0] == Subscribed(chan) && PhaseOf(n.client, chan) == Waiting
    requires CallInv(n, r) && PendingInv(n, chan)
    ensures CallInv(StepRead(n, n.events[0]), r)
    ensures r in StepRead(n, n.events[0]).handed <==> r in n.handed || (r in n.asked && n.asked[r] == chan)
    ensures r !in n.handed && r in n.asked && n.asked[r] == chan ==> r in StepRead(n, n.events[0]).receivers
  {
    var pending := n.client.subs[chan].pending.value;
    var rest := n.(events := n.events[1..]);
    HandOutResult(n.receivers, pending, Receiver(chan, n.client.subs[chan].tx, Delivered(rest, chan), []), r);
    assert r in pending ==> WaitsFor(n, chan, r);
  }

  // ---- Every run ----

  lemma AskKeepsCalls(n: Net, chan: Chan, reply: ReplyId)
    requires CallsInv(n) && SubsInv(n) && reply !in n.asked
    ensures CallsInv(StepAsk(n, chan, reply))
  {
    assert CallInv(n, reply) && PendingInv(n, chan);
    forall r ensures CallInv(StepAsk(n, chan, reply), r) {
      assert CallInv(n, r);
      AskKeepsCall(n, chan, reply, r);
    }
  }

  lemma IntervalKeepsCalls(n: Net, order: seq<Chan>)
    requires CallsInv(n) && IsWalk(n.client, LiveTx(n), order)
    ensures CallsInv(StepInterval(n, order))
  {
    forall r ensures CallInv(StepInterval(n, order), r) {
      assert CallInv(n, r);
      CallKept(n, StepInterval(n, order), r);
    }
  }

  lemma ReadKeepsCalls(n: Net)
    requires CallsInv(n) && SubsInv(n) && ChansInv(n) && n.events != []
    ensures CallsInv(StepRead(n, n.events[0]))
  {
    var event := n.events[0];
    if event.Subscribed? {
      assert PendingInv(n, event.chan) && ChanInv(n, event.chan);
      ReadKeepsChan(n, event.chan);
    }
    forall r ensures CallInv(StepRead(n, event), r) {
      assert CallInv(n, r);
      if event.Subscribed? {
        ConfirmKeepsCall(n, event.chan, r);
      } else {
        OtherReadIsQuiet(n);
        CallKept(n, StepRead(n, event), r);
      }
    }
  }

  lemma OtherReadIsQuiet(n: Net)
    requires n.events != [] && !n.events[0].Subscribed?
    ensures var n' := StepRead(n, n.events[0]);
            && n'.client == n.client && n'.asked == n.asked && n'.handed == n.handed
            && n'.receivers.Keys == n.receivers.Keys
  {
  }

  lemma StepKeepsCalls(n: Net, a: Action, n': Net)
    requires Inv(n) && CallsInv(n) && Step(n, a) == Some(n')
    ensures CallsInv(n')
  {
    match a
    case Ask(chan, reply) => AskKeepsCalls(n, chan, reply);
    case Interval(order) => IntervalKeepsCalls(n, order);
    case ReadEvent => ReadKeepsCalls(n);
    case _ =>
      forall r ensures CallInv(n', r) {
        assert CallInv(n, r);
        CallKept(n, n', r);
      }
  }

  lemma {:induction false} RunKeepsCalls(nets: seq<Net>, actions: seq<Action>, i: nat)
    requires IsRun(nets, actions) && i < |nets|
    ensures CallsInv(nets[i])
  {
    if i > 0 {
      RunKeepsCalls(nets, actions, i - 1);
      RunKeepsInv(nets, actions, i - 1);
      StepKeepsCalls(nets[i - 1], actions[i - 1], nets[i]);
    }
  }

  // ---- What it gives ----

  /**
   Every call either has been handed a receiver, or waits for its own channel with exactly one SUBSCRIBE
   or confirmation of that channel under way.
   */
  lemma AnsweredOrWaiting(nets: seq<Net>, actions: seq<Action>, i: nat, r: ReplyId)
    requires IsRun(nets, actions) && i < |nets| && r in nets[i].asked
    ensures var n, chan := nets[i], nets[i].asked[r];
            && (r in n.handed <==> !IsWaiting(n, r))
            && (r !in n.handed ==> SubscribesIn(n.commands, chan) + ConfirmationsIn(n.events, chan) == 1)
  {
    RunKeepsCalls(nets, actions, i);
    assert CallInv(nets[i], r);
    PendingIffOneInFlight(nets, actions, i, nets[i].asked[r]);
  }

  /** A call is answered in its own step if and only if its channel is confirmed. */
  lemma AskAnswersIff(nets: seq<Net>, actions: seq<Action>, i: nat, chan: Chan, reply: ReplyId)
    requires IsRun(nets, actions) && i < |actions| && actions[i] == Ask(chan, reply)
    ensures reply in nets[i + 1].handed <==> PhaseOf(nets[i].client, chan) == Live
    ensures reply !in nets[i + 1].handed ==> IsWaiting(nets[i + 1], reply)
  {
    RunKeepsInv(nets, actions, i);
    RunKeepsCalls(nets, actions, i);
    assert Step(nets[i], actions[i]) == Some(nets[i + 1]);
    assert CallInv(nets[i], reply) && PendingInv(nets[i], chan);
    AskKeepsCall(nets[i], chan, reply, reply);
    assert CallInv(nets[i + 1], reply);
  }

  /** Reading a confirmation hands a receiver to exactly the calls for that channel that have none yet. */
  lemma ConfirmationAnswersAll(nets: seq<Net>, actions: seq<Action>, i: nat, chan: Chan, r: ReplyId)
    requires IsRun(nets, actions) && i < |actions| && actions[i] == ReadEvent
    requires nets[i].events != [] && nets[i].events[0] == Subscribed(chan)
    ensures r in nets[i + 1].handed <==> r in nets[i].handed || (r in nets[i].asked && nets[i].asked[r] == chan)
    ensures r in nets[i + 1].handed && r !in nets[i].handed ==>
              r in nets[i + 1].receivers && nets[i + 1].receivers[r].chan == chan
  {
    RunKeepsInv(nets, actions, i);
    RunKeepsInv(nets, actions, i + 1);
    RunKeepsCalls(nets, actions, i);
    assert Step(nets[i], actions[i]) == Some(nets[i + 1]);
    assert CallInv(nets[i], r) && PendingInv(nets[i], chan) && ChanInv(nets[i], chan);
    ReadKeepsChan(nets[i], chan);
    ConfirmKeepsCall(nets[i], chan, r);
    assert r in nets[i + 1].receivers ==> ReceiverInv(nets[i + 1], r);
  }

  /** When both pipes are empty, every call is answered, and the server has what the client tracks. */
  lemma QuietMeansAnswered(nets: seq<Net>, actions: seq<Action>, i: nat)
    requires IsRun(nets, actions) && i < |nets| && nets[i].commands == [] && nets[i].events == []
    ensures forall r :: r in nets[i].asked ==> r in nets[i].handed
    ensures forall chan :: chan in nets[i].server <==> chan in nets[i].client.subs
  {
    RunKeepsInv(nets, actions, i);
    forall r | r in nets[i].asked ensures r in nets[i].handed {
      AnsweredOrWaiting(nets, actions, i, r);
    }
    forall chan ensures chan in nets[i].server <==> chan in nets[i].client.subs {
      assert ChanInv(nets[i], chan);
    }
  }

  // ---- The interval ----

  /** Somebody waits for the channel, or has a live receiver of it. */
  predicate IsUsed(n: Net, chan: Chan) {
    PhaseOf(n.client, chan) == Waiting || exists r :: r in n.receivers && n.receivers[r].chan == chan
  }

  lemma IdleIffUnused(n: Net, chan: Chan)
    requires Inv(n) && chan in n.client.subs
    ensures IsIdle(n.client, LiveTx(n), chan) <==> !IsUsed(n, chan)
  {
    forall r | r in n.receivers
      ensures n.receivers[r].tx == n.client.subs[chan].tx <==> n.receivers[r].chan == chan
    {
      assert ReceiverInv(n, r);
    }
  }

  /**
   The interval drops exactly the channels that nobody uses, and asks the server to unsubscribe them in
   one command; if there are none it sends a PING.
   */
  lemma IntervalDropsUnused(nets: seq<Net>, actions: seq<Action>, i: nat, order: seq<Chan>)
    requires IsRun(nets, actions) && i < |actions| && actions[i] == Interval(order)
    ensures forall chan :: chan in nets[i + 1].client.subs <==> chan in nets[i].client.subs && IsUsed(nets[i], chan)
    ensures forall chan :: chan in order <==> chan in nets[i].client.subs && !IsUsed(nets[i], chan)
    ensures nets[i + 1].commands == nets[i].commands + [if order == [] then Ping else Command.Unsubscribe(order)]
  {
    RunKeepsInv(nets, actions, i);
    assert Step(nets[i], actions[i]) == Some(nets[i + 1]);
    forall chan ensures chan in order <==> chan in nets[i].client.subs && !IsUsed(nets[i], chan) {
      if chan in nets[i].client.subs {
        IdleIffUnused(nets[i], chan);
      }
    }
  }
}
