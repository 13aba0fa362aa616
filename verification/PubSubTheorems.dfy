/** The subscription guarantee of the pub/sub connection, over every run. */
module PubSubTheorems {
  import opened Wrappers
  import opened PubSub
  import opened PubSubInvariant

  // ---- Pending replies and requests in flight ----

  function SubscribesIn(commands: seq<Command>, chan: Chan): nat {
    if commands == [] then 0
    else (if commands[0] == Command.Subscribe(chan) then 1 else 0) + SubscribesIn(commands[1..], chan)
  }

  function ConfirmationsIn(events: seq<Event>, chan: Chan): nat {
    if events == [] then 0
    else (if events[0] == Subscribed(chan) then 1 else 0) + ConfirmationsIn(events[1..], chan)
  }

  lemma {:induction false} CountRequested(commands: seq<Command>, chan: Chan)
    requires Requested(commands, chan) != Jam
    ensures SubscribesIn(commands, chan) == if IsAwaited(Requested(commands, chan)) then 1 else 0
  {
    if commands != [] {
      CountRequested(commands[1..], chan);
    }
  }

  lemma {:induction false} CountConfirmed(events: seq<Event>, chan: Chan)
    requires Confirmed(events, chan) != Jam
    ensures ConfirmationsIn(events, chan) == if IsAwaited(Confirmed(events, chan)) then 1 else 0
  {
    if events != [] {
      CountConfirmed(events[1..], chan);
    }
  }

  /**
   A channel has replies pending exactly when one SUBSCRIBE for it, or its confirmation, is in flight;
   otherwise none is, also across an unsubscription and a new subscription of the same channel.
   */
  lemma PendingIffOneInFlight(nets: seq<Net>, actions: seq<Action>, i: nat, chan: Chan)
    requires IsRun(nets, actions) && i < |nets|
    ensures SubscribesIn(nets[i].commands, chan) + ConfirmationsIn(nets[i].events, chan)
            == if PhaseOf(nets[i].client, chan) == Waiting then 1 else 0
  {
    RunKeepsInv(nets, actions, i);
    assert ChanInv(nets[i], chan);
    CountRequested(nets[i].commands, chan);
    CountConfirmed(nets[i].events, chan);
  }

  // ---- Receivers ----

  /**
   While a receiver is live, the server has its channel subscribed with no change on the way, and what
   the receiver was sent, followed by what is in flight to it, is everything published on the channel
   from `start` on: nothing missing, nothing twice, nothing out of order.
   */
  lemma LiveReceiverMissesNothing(nets: seq<Net>, actions: seq<Action>, i: nat, r: ReplyId)
    requires IsRun(nets, actions) && i < |nets| && r in nets[i].receivers
    ensures var n, rc := nets[i], nets[i].receivers[r];
            && r in n.asked && n.asked[r] == rc.chan
            && rc.chan in n.server
            && Requested(n.commands, rc.chan) == Nothing && Confirmed(n.events, rc.chan) == Nothing
            && rc.start <= |PublishedOn(n, rc.chan)|
            && rc.got + Messages(n.events, rc.chan) == PublishedOn(n, rc.chan)[rc.start..]
  {
    RunKeepsInv(nets, actions, i);
    assert ReceiverInv(nets[i], r) && ChanInv(nets[i], nets[i].receivers[r].chan);
  }

  /** `subscribe` returns in this step. */
  predicate IsHandedOut(nets: seq<Net>, h: nat, r: ReplyId) {
    h + 1 < |nets| && r !in nets[h].receivers && r in nets[h + 1].receivers
  }

  /**
   `subscribe` returns only after the server has processed the SUBSCRIBE: the channel was already
   subscribed before the step that hands out the receiver.
   */
  lemma SubscribedBeforeReturn(nets: seq<Net>, actions: seq<Action>, h: nat, r: ReplyId)
    requires IsRun(nets, actions) && IsHandedOut(nets, h, r)
    ensures var rc := nets[h + 1].receivers[r];
            && rc.chan in nets[h].server && rc.got == []
            && rc.start <= |PublishedOn(nets[h], rc.chan)|
            && nets[h + 1].published == nets[h].published
  {
    RunKeepsInv(nets, actions, h);
    LiveReceiverMissesNothing(nets, actions, h + 1, r);
    HandOutStep(nets[h], actions[h], nets[h + 1], r);
  }

  lemma HandOutStep(n: Net, a: Action, n': Net, r: ReplyId)
    requires Step(n, a) == Some(n') && r !in n.receivers && r in n'.receivers
    ensures n'.server == n.server && n'.published == n.published && n'.receivers[r].got == []
  {
    match a {
      case Ask(chan, reply) =>
        var (_, effects) := OnCommand(n.client, chan, reply);
        HandOutResult(n.receivers, effects.replies, Receiver(chan, effects.tx, Delivered(n, chan), []), r);
      case Interval(_) =>
      case ReadEvent =>
        var event := n.events[0];
        var (_, effects) := OnEvent(n.client, event);
        if event.Subscribed? {
          HandOutResult(n.receivers, effects.replies,
                        Receiver(event.chan, effects.tx, Delivered(n.(events := n.events[1..]), event.chan), []), r);
        }
      case Serve =>
      case PublishOnServer(_, _) =>
      case DropReceiver(_) =>
    }
  }

  /** The receiver stays on its channel, keeps its starting point, and only gains messages. */
  predicate Continues(n: Net, n': Net, r: ReplyId)
    requires r in n.receivers && r in n'.receivers
  {
    && n'.receivers[r].chan == n.receivers[r].chan && n'.receivers[r].start == n.receivers[r].start
    && n.receivers[r].got <= n'.receivers[r].got
    && PublishedOn(n, n.receivers[r].chan) <= PublishedOn(n', n.receivers[r].chan)
  }

  lemma ReceiverAsk(n: Net, chan: Chan, reply: ReplyId, r: ReplyId)
    requires r in n.receivers && r in n.asked && reply !in n.asked
    ensures r in StepAsk(n, chan, reply).receivers && Continues(n, StepAsk(n, chan, reply), r)
  {
    var (_, effects) := OnCommand(n.client, chan, reply);
    HandOutResult(n.receivers, effects.replies, Receiver(chan, effects.tx, Delivered(n, chan), []), r);
  }

  /** A confirmation makes receivers of replies that have none yet. */
  lemma ReceiverConfirm(n: Net, chan: Chan, r: ReplyId)
    requires n.events != [] && n.events[0] == Subscribed(chan) && PendingInv(n, chan) && r in n.receivers
    ensures r in StepRead(n, n.events[0]).receivers && Continues(n, StepRead(n, n.events[0]), r)
  {
    var (_, effects) := OnEvent(n.client, n.events[0]);
    var rest := n.(events := n.events[1..]);
    HandOutResult(n.receivers, effects.replies, Receiver(chan, effects.tx, Delivered(rest, chan), []), r);
    assert r in effects.replies ==> WaitsFor(n, chan, r);
  }

  lemma ReceiverRead(n: Net, r: ReplyId)
    requires n.events != [] && !n.events[0].Subscribed? && r in n.receivers
    ensures r in StepRead(n, n.events[0]).receivers && Continues(n, StepRead(n, n.events[0]), r)
  {
  }

  lemma ReceiverStep(n: Net, a: Action, n': Net, r: ReplyId)
    requires SubsInv(n) && Step(n, a) == Some(n') && r in n.receivers && ReceiverInv(n, r) && r in n'.receivers
    ensures Continues(n, n', r)
  {
    match a {
      case Ask(chan, reply) => ReceiverAsk(n, chan, reply, r);
      case ReadEvent =>
        if n.events[0].Subscribed? {
          assert PendingInv(n, n.events[0].chan);
          ReceiverConfirm(n, n.events[0].chan, r);
        } else {
          ReceiverRead(n, r);
        }
      case Interval(_) =>
      case Serve =>
      case PublishOnServer(_, _) =>
      case DropReceiver(_) =>
    }
  }

  lemma {:induction false} ReceiverOverTime(nets: seq<Net>, actions: seq<Action>, h: nat, j: nat, r: ReplyId)
    requires IsRun(nets, actions) && h <= j < |nets|
    requires forall k :: h <= k <= j ==> r in nets[k].receivers
    ensures nets[j].receivers[r].chan == nets[h].receivers[r].chan
    ensures nets[j].receivers[r].start == nets[h].receivers[r].start
    ensures nets[h].receivers[r].got <= nets[j].receivers[r].got
    ensures PublishedOn(nets[h], nets[h].receivers[r].chan) <= PublishedOn(nets[j], nets[h].receivers[r].chan)
    decreases j - h
  {
    if h < j {
      ReceiverOverTime(nets, actions, h, j - 1, r);
      assert SubsInv(nets[j - 1]) && ReceiverInv(nets[j - 1], r) by {
        RunKeepsInv(nets, actions, j - 1);
      }
      ReceiverStep(nets[j - 1], actions[j - 1], nets[j], r);
    }
  }

  /**
   Everything published after `subscribe` returned has been sent to the receiver or is on its way to
   it, in the order of publication, for as long as the receiver is live.
   */
  lemma EveryLaterPublishArrives(nets: seq<Net>, actions: seq<Action>, h: nat, j: nat, r: ReplyId)
    requires IsRun(nets, actions) && IsHandedOut(nets, h, r) && h < j < |nets|
    requires forall k :: h < k <= j ==> r in nets[k].receivers
    ensures var rc := nets[j].receivers[r];
            var before, all := |PublishedOn(nets[h], rc.chan)|, PublishedOn(nets[j], rc.chan);
            var stream := rc.got + Messages(nets[j].events, rc.chan);
            && PublishedOn(nets[h], rc.chan) <= all
            && |all| - before <= |stream|
            && all[before..] == stream[|stream| - (|all| - before)..]
  {
    SubscribedBeforeReturn(nets, actions, h, r);
    ReceiverOverTime(nets, actions, h + 1, j, r);
    LiveReceiverMissesNothing(nets, actions, j, r);
  }
}
