/** What every step of the pub/sub connection keeps. */
module PubSubInvariant {
  import opened Wrappers
  import opened PubSub

  // ---- What one pipe holds about a channel ----

  /**
   The SUBSCRIBEs and UNSUBSCRIBEs of a channel in one pipe, oldest first (or their confirmations):
   none, one of either, or an UNSUBSCRIBE and then a SUBSCRIBE. `Jam` is anything else.
   */
  datatype Flight = Nothing | Off | On | OffOn | Jam

  function Join(a: Flight, b: Flight): Flight {
    if a == Nothing then b else if b == Nothing then a else if a == Off && b == On then OffOn else Jam
  }

  function InCommand(command: Command, chan: Chan): Flight {
    match command
    case Subscribe(c) => if c == chan then On else Nothing
    case Unsubscribe(cs) => if chan in cs then Off else Nothing
    case Ping => Nothing
  }

  function InEvent(event: Event, chan: Chan): Flight {
    match event
    case Subscribed(c) => if c == chan then On else Nothing
    case Unsubscribed(c) => if c == chan then Off else Nothing
    case Message(_, _) => Nothing
    case Pong => Nothing
  }

  /** What the server has not processed yet. */
  function Requested(commands: seq<Command>, chan: Chan): Flight {
    if commands == [] then Nothing else Join(InCommand(commands[0], chan), Requested(commands[1..], chan))
  }

  /** What the client has not read yet. */
  function Confirmed(events: seq<Event>, chan: Chan): Flight {
    if events == [] then Nothing else Join(InEvent(events[0], chan), Confirmed(events[1..], chan))
  }

  /** The events behind the first unread subscription confirmation of the channel. */
  function BehindConfirmation(events: seq<Event>, chan: Chan): seq<Event> {
    if events == [] then []
    else if events[0] == Subscribed(chan) then events[1..]
    else BehindConfirmation(events[1..], chan)
  }

  lemma JoinIsAssociative(a: Flight, b: Flight, c: Flight)
    ensures Join(Join(a, b), c) == Join(a, Join(b, c))
  {
  }

  lemma {:induction false} RequestedAppend(a: seq<Command>, b: seq<Command>, chan: Chan)
    ensures Requested(a + b, chan) == Join(Requested(a, chan), Requested(b, chan))
  {
    if a == [] {
      assert a + b == b;
    } else {
      assert (a + b)[0] == a[0] && (a + b)[1..] == a[1..] + b;
      RequestedAppend(a[1..], b, chan);
      JoinIsAssociative(InCommand(a[0], chan), Requested(a[1..], chan), Requested(b, chan));
    }
  }

  lemma {:induction false} ConfirmedAppend(a: seq<Event>, b: seq<Event>, chan: Chan)
    ensures Confirmed(a + b, chan) == Join(Confirmed(a, chan), Confirmed(b, chan))
  {
    if a == [] {
      assert a + b == b;
    } else {
      assert (a + b)[0] == a[0] && (a + b)[1..] == a[1..] + b;
      ConfirmedAppend(a[1..], b, chan);
      JoinIsAssociative(InEvent(a[0], chan), Confirmed(a[1..], chan), Confirmed(b, chan));
    }
  }

  lemma {:induction false} MessagesAppend(a: seq<Event>, b: seq<Event>, chan: Chan)
    ensures Messages(a + b, chan) == Messages(a, chan) + Messages(b, chan)
  {
    if a == [] {
      assert a + b == b;
    } else {
      var first := if a[0].Message? && a[0].chan == chan then [a[0].data] else [];
      assert (a + b)[0] == a[0] && (a + b)[1..] == a[1..] + b;
      MessagesAppend(a[1..], b, chan);
      ConcatIsAssociative(first, Messages(a[1..], chan), Messages(b, chan));
    }
  }

  lemma {:induction false} BehindAppend(a: seq<Event>, b: seq<Event>, chan: Chan)
    ensures BehindConfirmation(a + b, chan) ==
            if Subscribed(chan) in a then BehindConfirmation(a, chan) + b else BehindConfirmation(b, chan)
  {
    if a == [] {
      assert a + b == b;
    } else {
      assert (a + b)[0] == a[0] && (a + b)[1..] == a[1..] + b;
      BehindAppend(a[1..], b, chan);
    }
  }

  lemma {:induction false} ConfirmedIsPresent(events: seq<Event>, chan: Chan)
    ensures Confirmed(events, chan) in {Nothing, Off} ==> Subscribed(chan) !in events
    ensures Confirmed(events, chan) in {On, OffOn} ==> Subscribed(chan) in events
  {
    if events != [] {
      ConfirmedIsPresent(events[1..], chan);
    }
  }

  predicate HasNoDuplicates(chans: seq<Chan>) {
    forall i, j :: 0 <= i < j < |chans| ==> chans[i] != chans[j]
  }

  lemma {:induction false} ConfirmationsOf(chans: seq<Chan>, chan: Chan)
    requires HasNoDuplicates(chans)
    ensures Confirmed(Confirmations(chans), chan) == if chan in chans then Off else Nothing
    ensures Messages(Confirmations(chans), chan) == []
  {
    if chans != [] {
      assert Confirmations(chans)[1..] == Confirmations(chans[1..]);
      ConfirmationsOf(chans[1..], chan);
    }
  }

  // ---- The invariant ----

  /** The client's side of a channel. */
  datatype Phase = Absent | Waiting | Live

  function PhaseOf(c: Client, chan: Chan): Phase {
    if chan !in c.subs then Absent else if c.subs[chan].pending.Some? then Waiting else Live
  }

  /**
   The client's view of a channel, the confirmations and requests in flight, and the server's view fit
   together. At most an UNSUBSCRIBE followed by a SUBSCRIBE is in flight, split between the two pipes.
   */
  predicate Agree(phase: Phase, conf: Flight, req: Flight, on: bool) {
    match phase
    case Absent =>
      || (conf == Nothing && req == Nothing && !on)
      || (conf == Off && req == Nothing && !on)
      || (conf == Nothing && req == Off && on)
    case Waiting =>
      || (conf == Nothing && req == On && !on)
      || (conf == On && req == Nothing && on)
      || (conf == Off && req == On && !on)
      || (conf == Nothing && req == OffOn && on)
      || (conf == OffOn && req == Nothing && on)
    case Live =>
      conf == Nothing && req == Nothing && on
  }

  predicate IsSuffix(a: seq<Data>, b: seq<Data>) {
    |a| <= |b| && a == b[|b| - |a|..]
  }

  predicate IsAwaited(conf: Flight) {
    conf == On || conf == OffOn
  }

  /**
   The messages in flight for the current subscription are the newest ones published, none missing:
   all that are in flight once the subscription is confirmed, those behind the confirmation before.
   */
  predicate NothingSkipped(phase: Phase, events: seq<Event>, chan: Chan, published: seq<Data>) {
    match phase
    case Absent => true
    case Waiting =>
      IsAwaited(Confirmed(events, chan)) ==> IsSuffix(Messages(BehindConfirmation(events, chan), chan), published)
    case Live => IsSuffix(Messages(events, chan), published)
  }

  predicate ViewsAgree(n: Net, chan: Chan) {
    Agree(PhaseOf(n.client, chan), Confirmed(n.events, chan), Requested(n.commands, chan), chan in n.server)
  }

  predicate ChanInv(n: Net, chan: Chan) {
    ViewsAgree(n, chan) && NothingSkipped(PhaseOf(n.client, chan), n.events, chan, PublishedOn(n, chan))
  }

  predicate ReceiverInv(n: Net, r: ReplyId)
    requires r in n.receivers
  {
    var rc := n.receivers[r];
    && r in n.asked && n.asked[r] == rc.chan
    && rc.chan in n.client.subs && n.client.subs[rc.chan] == Sub(rc.tx, None)
    && rc.start <= |PublishedOn(n, rc.chan)|
    && rc.got + Messages(n.events, rc.chan) == PublishedOn(n, rc.chan)[rc.start..]
  }

  /** No two channels share a broadcast channel. */
  ghost predicate TxInv(c: Client) {
    && (forall chan :: chan in c.subs ==> c.subs[chan].tx < c.nextTx)
    && (forall a, b :: a in c.subs && b in c.subs && c.subs[a].tx == c.subs[b].tx ==> a == b)
  }

  /** Whoever waits for a channel asked for it, and has no receiver yet. */
  predicate WaitsFor(n: Net, chan: Chan, r: ReplyId) {
    r in n.asked && n.asked[r] == chan && r !in n.receivers
  }

  predicate PendingInv(n: Net, chan: Chan) {
    PhaseOf(n.client, chan) == Waiting ==> forall r :: r in n.client.subs[chan].pending.value ==> WaitsFor(n, chan, r)
  }

  predicate CommandsInv(commands: seq<Command>) {
    forall i :: 0 <= i < |commands| && commands[i].Unsubscribe? ==> HasNoDuplicates(commands[i].chans)
  }

  ghost predicate SubsInv(n: Net) {
    TxInv(n.client) && (forall chan :: PendingInv(n, chan)) && CommandsInv(n.commands)
  }

  ghost predicate ChansInv(n: Net) {
    forall chan :: ChanInv(n, chan)
  }

  predicate ReceiversInv(n: Net) {
    forall r :: r in n.receivers ==> ReceiverInv(n, r)
  }

  ghost predicate Inv(n: Net) {
    SubsInv(n) && ChansInv(n) && ReceiversInv(n)
  }

  // ---- The client writes ----

  /** The client writes commands and changes its phase of a channel; nothing else changes. */
  lemma WriteKeepsChan(n: Net, n': Net, added: seq<Command>, chan: Chan)
    requires ChanInv(n, chan)
    requires n'.commands == n.commands + added && n'.events == n.events
    requires n'.server == n.server && n'.published == n.published
    requires var before, after := PhaseOf(n.client, chan), PhaseOf(n'.client, chan);
             || (Requested(added, chan) == Nothing && after == before)
             || (Requested(added, chan) == On && before == Absent && after == Waiting)
             || (Requested(added, chan) == Off && before == Live && after == Absent)
    ensures ChanInv(n', chan)
  {
    RequestedAppend(n.commands, added, chan);
  }

  /** Nothing about the channel changes. */
  lemma SameChan(n: Net, n': Net, chan: Chan)
    requires ChanInv(n, chan)
    requires n'.commands == n.commands && n'.events == n.events && n'.server == n.server && n'.published == n.published
    requires PhaseOf(n'.client, chan) == PhaseOf(n.client, chan)
    ensures ChanInv(n', chan)
  {
  }

  /** A new receiver starts at the oldest message that is still in flight for its channel. */
  lemma HandOutKeeps(n: Net, chan: Chan, reply: ReplyId)
    requires reply in n.receivers && PhaseOf(n.client, chan) == Live
    requires IsSuffix(Messages(n.events, chan), PublishedOn(n, chan))
    requires n.receivers[reply] == Receiver(chan, n.client.subs[chan].tx, Delivered(n, chan), [])
    requires reply in n.asked && n.asked[reply] == chan
    ensures ReceiverInv(n, reply)
  {
    assert [] + Messages(n.events, chan) == Messages(n.events, chan);
  }

  /** A receiver whose channel, subscription and stream a step leaves alone. */
  lemma ReceiverKept(n: Net, n': Net, r: ReplyId)
    requires r in n.receivers && ReceiverInv(n, r)
    requires r in n'.receivers && n'.receivers[r] == n.receivers[r] && r in n'.asked && n'.asked[r] == n.asked[r]
    requires var chan := n.receivers[r].chan;
             && chan in n'.client.subs && n'.client.subs[chan] == n.client.subs[chan]
             && PublishedOn(n', chan) == PublishedOn(n, chan) && Messages(n'.events, chan) == Messages(n.events, chan)
    ensures ReceiverInv(n', r)
  {
  }

  lemma NoReceiverYet(n: Net, reply: ReplyId)
    requires ReceiversInv(n) && reply !in n.asked
    ensures reply !in n.receivers
  {
    assert reply in n.receivers ==> ReceiverInv(n, reply);
  }

  /** A new reply that waits for `chan` with the others, or alone. */
  lemma AskKeepsPending(n: Net, n': Net, chan: Chan, reply: ReplyId, c: Chan)
    requires PendingInv(n, c) && reply !in n.asked && reply !in n.receivers
    requires n'.receivers == n.receivers && n'.asked == n.asked[reply := chan]
    requires c != chan ==> (c in n'.client.subs <==> c in n.client.subs)
    requires c != chan && c in n.client.subs ==> n'.client.subs[c] == n.client.subs[c]
    requires chan in n'.client.subs && n'.client.subs[chan].pending.Some?
    requires var before := if PhaseOf(n.client, chan) == Waiting then n.client.subs[chan].pending.value else [];
             n'.client.subs[chan].pending.value == before + [reply]
    ensures PendingInv(n', c)
  {
    if c == chan {
      forall r | r in n'.client.subs[chan].pending.value
        ensures WaitsFor(n', chan, r)
      {
        assert r == reply || WaitsFor(n, chan, r);
      }
    } else if PhaseOf(n.client, c) == Waiting {
      forall r | r in n'.client.subs[c].pending.value
        ensures WaitsFor(n', c, r)
      {
        assert WaitsFor(n, c, r);
      }
    }
  }

  /** Steps that leave the client's map alone, and create no receiver. */
  lemma SubsKept(n: Net, n': Net)
    requires SubsInv(n) && n'.client == n.client && n'.asked == n.asked && n'.receivers.Keys <= n.receivers.Keys
    requires CommandsInv(n'.commands)
    ensures SubsInv(n')
  {
    forall c ensures PendingInv(n', c) {
      assert PendingInv(n, c);
      assert forall r :: WaitsFor(n, c, r) ==> WaitsFor(n', c, r);
    }
  }

  lemma NewTx(c: Client, chan: Chan, sub: Sub)
    requires TxInv(c) && chan !in c.subs && sub.tx == c.nextTx
    ensures TxInv(Client(c.subs[chan := sub], c.nextTx + 1))
  {
  }

  lemma SameTx(c: Client, chan: Chan, sub: Sub)
    requires TxInv(c) && chan in c.subs && sub.tx == c.subs[chan].tx
    ensures TxInv(c.(subs := c.subs[chan := sub]))
  {
  }

  lemma CommandsAppend(a: seq<Command>, b: seq<Command>)
    requires CommandsInv(a) && CommandsInv(b)
    ensures CommandsInv(a + b)
  {
  }

  lemma AskNewKeepsSubs(n: Net, chan: Chan, reply: ReplyId, n': Net)
    requires SubsInv(n) && chan !in n.client.subs && reply !in n.asked && reply !in n.receivers
    requires n' == n.(handed := n'.handed,
                      client := Client(n.client.subs[chan := Sub(n.client.nextTx, Some([reply]))], n.client.nextTx + 1),
                      commands := n.commands + [Command.Subscribe(chan)], asked := n.asked[reply := chan])
    ensures SubsInv(n')
  {
    NewTx(n.client, chan, Sub(n.client.nextTx, Some([reply])));
    CommandsAppend(n.commands, [Command.Subscribe(chan)]);
    forall c ensures PendingInv(n', c) {
      assert PendingInv(n, c);
      AskKeepsPending(n, n', chan, reply, c);
    }
  }

  /** A first request for a channel: it becomes tracked, and the server is asked. */
  lemma AskNewKeepsInv(n: Net, chan: Chan, reply: ReplyId, n': Net)
    requires Inv(n) && chan !in n.client.subs && reply !in n.asked
    requires n' == n.(handed := n'.handed,
                      client := Client(n.client.subs[chan := Sub(n.client.nextTx, Some([reply]))], n.client.nextTx + 1),
                      commands := n.commands + [Command.Subscribe(chan)], asked := n.asked[reply := chan])
    ensures Inv(n')
  {
    NoReceiverYet(n, reply);
    AskNewKeepsSubs(n, chan, reply, n');
    AskNewKeepsChans(n, chan, n');
    forall r | r in n'.receivers ensures ReceiverInv(n', r) {
      assert ReceiverInv(n, r);
      ReceiverKept(n, n', r);
    }
  }

  lemma AskNewKeepsChans(n: Net, chan: Chan, n': Net)
    requires ChansInv(n) && chan !in n.client.subs
    requires n'.commands == n.commands + [Command.Subscribe(chan)] && n'.events == n.events
    requires n'.server == n.server && n'.published == n.published
    requires exists sub: Sub :: sub.pending.Some? && n'.client.subs == n.client.subs[chan := sub]
    ensures ChansInv(n')
  {
    forall c ensures ChanInv(n', c) {
      assert ChanInv(n, c);
      WriteKeepsChan(n, n', [Command.Subscribe(chan)], c);
    }
  }

  /** The channel awaits confirmation: the reply waits with the others. */
  lemma AskWaitingKeepsInv(n: Net, chan: Chan, reply: ReplyId, n': Net)
    requires Inv(n) && PhaseOf(n.client, chan) == Waiting && reply !in n.asked
    requires var sub := n.client.subs[chan];
             var sub' := sub.(pending := Some(sub.pending.value + [reply]));
             n' == n.(handed := n'.handed, client := n.client.(subs := n.client.subs[chan := sub']),
                      asked := n.asked[reply := chan])
    ensures Inv(n')
  {
    NoReceiverYet(n, reply);
    SameTx(n.client, chan, n'.client.subs[chan]);
    forall c ensures PendingInv(n', c) {
      assert PendingInv(n, c);
      AskKeepsPending(n, n', chan, reply, c);
    }
    forall c ensures ChanInv(n', c) {
      assert ChanInv(n, c);
      SameChan(n, n', c);
    }
    forall r | r in n'.receivers ensures ReceiverInv(n', r) {
      assert ReceiverInv(n, r);
      ReceiverKept(n, n', r);
    }
  }

  /** A new reply that is a receiver at once does not wait for anything. */
  lemma ReceiverKeepsPending(n: Net, n': Net, chan: Chan, reply: ReplyId, c: Chan)
    requires PendingInv(n, c) && reply !in n.asked && n'.client == n.client
    requires n'.asked == n.asked[reply := chan] && n'.receivers.Keys == n.receivers.Keys + {reply}
    ensures PendingInv(n', c)
  {
    if PhaseOf(n.client, c) == Waiting {
      forall r | r in n.client.subs[c].pending.value
        ensures WaitsFor(n', c, r)
      {
        assert WaitsFor(n, c, r);
      }
    }
  }

  /** The channel is confirmed: the reply is a receiver at once. */
  lemma AskLiveKeepsInv(n: Net, chan: Chan, reply: ReplyId, n': Net)
    requires Inv(n) && PhaseOf(n.client, chan) == Live && reply !in n.asked
    requires var receiver := Receiver(chan, n.client.subs[chan].tx, Delivered(n, chan), []);
             n' == n.(handed := n'.handed, receivers := n.receivers[reply := receiver], asked := n.asked[reply := chan])
    ensures Inv(n')
  {
    forall c ensures PendingInv(n', c) {
      assert PendingInv(n, c);
      ReceiverKeepsPending(n, n', chan, reply, c);
    }
    forall c ensures ChanInv(n', c) {
      assert ChanInv(n, c);
      SameChan(n, n', c);
    }
    forall r | r in n'.receivers ensures ReceiverInv(n', r) {
      if r == reply {
        assert ChanInv(n, chan);
        HandOutKeeps(n', chan, r);
      } else {
        assert ReceiverInv(n, r);
        ReceiverKept(n, n', r);
      }
    }
  }

  lemma AskLiveIs(n: Net, chan: Chan, reply: ReplyId)
    requires PhaseOf(n.client, chan) == Live
    ensures var receiver := Receiver(chan, n.client.subs[chan].tx, Delivered(n, chan), []);
            StepAsk(n, chan, reply) == n.(receivers := n.receivers[reply := receiver], asked := n.asked[reply := chan],
                                          handed := n.handed + {reply})
  {
    var receiver := Receiver(chan, n.client.subs[chan].tx, Delivered(n, chan), []);
    assert n.commands + [] == n.commands;
    assert HandOut(n.receivers, [reply], receiver) == n.receivers[reply := receiver];
  }

  lemma AskKeepsInv(n: Net, chan: Chan, reply: ReplyId)
    requires Inv(n) && reply !in n.asked
    ensures Inv(StepAsk(n, chan, reply))
  {
    var n' := StepAsk(n, chan, reply);
    match PhaseOf(n.client, chan)
    case Absent => AskNewKeepsInv(n, chan, reply, n');
    case Waiting =>
      assert n.commands + [] == n.commands;
      AskWaitingKeepsInv(n, chan, reply, n');
    case Live =>
      AskLiveIs(n, chan, reply);
      AskLiveKeepsInv(n, chan, reply, n');
  }

  // ---- The interval ----

  lemma IntervalKeepsInv(n: Net, order: seq<Chan>)
    requires Inv(n) && IsWalk(n.client, LiveTx(n), order)
    ensures Inv(StepInterval(n, order))
  {
    var added := if order == [] then [Ping] else [Command.Unsubscribe(order)];
    var client := n.client.(subs := n.client.subs - (set chan | chan in order));
    assert client.subs == n.client.subs || order != [];
    UnsubscribeKeepsInv(n, order, added, StepInterval(n, order));
  }

  /** Channels leave the map; what stays is as it was. */
  lemma UnsubscribeKeepsSubs(n: Net, order: seq<Chan>, added: seq<Command>, n': Net)
    requires SubsInv(n) && HasNoDuplicates(order)
    requires added == if order == [] then [Ping] else [Command.Unsubscribe(order)]
    requires n'.client == n.client.(subs := n.client.subs - (set chan | chan in order))
    requires n'.commands == n.commands + added && n'.asked == n.asked && n'.receivers == n.receivers
    ensures SubsInv(n')
  {
    CommandsAppend(n.commands, added);
    forall c ensures PendingInv(n', c) {
      assert PendingInv(n, c);
      assert forall r :: WaitsFor(n, c, r) ==> WaitsFor(n', c, r);
    }
  }

  lemma UnsubscribeKeepsChan(n: Net, order: seq<Chan>, added: seq<Command>, n': Net, c: Chan)
    requires ChanInv(n, c) && (c in order ==> PhaseOf(n.client, c) == Live)
    requires added == if order == [] then [Ping] else [Command.Unsubscribe(order)]
    requires n' == n.(handed := n'.handed, client := n.client.(subs := n.client.subs - (set chan | chan in order)),
                      commands := n.commands + added)
    ensures ChanInv(n', c)
  {
    assert added[1..] == [] && Requested(added, c) == InCommand(added[0], c);
    WriteKeepsChan(n, n', added, c);
  }

  lemma UnsubscribeKeepsInv(n: Net, order: seq<Chan>, added: seq<Command>, n': Net)
    requires Inv(n) && IsWalk(n.client, LiveTx(n), order)
    requires added == if order == [] then [Ping] else [Command.Unsubscribe(order)]
    requires n' == n.(handed := n'.handed, client := n.client.(subs := n.client.subs - (set chan | chan in order)),
                      commands := n.commands + added)
    ensures Inv(n')
  {
    UnsubscribeKeepsSubs(n, order, added, n');
    forall c ensures ChanInv(n', c) {
      assert ChanInv(n, c);
      assert c in order ==> IsIdle(n.client, LiveTx(n), c);
      UnsubscribeKeepsChan(n, order, added, n', c);
    }
    forall r | r in n'.receivers ensures ReceiverInv(n', r) {
      assert ReceiverInv(n, r);
      StaysSubscribed(n, order, r);
      ReceiverKept(n, n', r);
    }
  }

  /** A channel with a live receiver is not idle. */
  lemma StaysSubscribed(n: Net, order: seq<Chan>, r: ReplyId)
    requires r in n.receivers && ReceiverInv(n, r) && IsWalk(n.client, LiveTx(n), order)
    ensures n.receivers[r].chan !in order
  {
    assert n.receivers[r].tx in LiveTx(n);
    assert n.receivers[r].chan in order ==> IsIdle(n.client, LiveTx(n), n.receivers[r].chan);
  }

  // ---- The server appends to the event pipe ----

  lemma SuffixAppend(a: seq<Data>, b: seq<Data>, more: seq<Data>)
    ensures IsSuffix(a, b) ==> IsSuffix(a + more, b + more)
  {
  }

  /**
   New events at the end of the pipe, of which `more` are messages of the channel: nothing is skipped
   if the same messages were published.
   */
  lemma EventsKeepSuffix(events: seq<Event>, added: seq<Event>, chan: Chan, phase: Phase,
                         published: seq<Data>, more: seq<Data>)
    requires Confirmed(events, chan) != Jam && Confirmed(events + added, chan) != Jam
    requires NothingSkipped(phase, events, chan, published)
    requires Messages(added, chan) == more
    requires IsAwaited(Confirmed(added, chan)) ==> Messages(BehindConfirmation(added, chan), chan) == []
    requires IsAwaited(Confirmed(added, chan)) ==> more == []
    requires more != [] ==> Confirmed(added, chan) == Nothing
    ensures NothingSkipped(phase, events + added, chan, published + more)
    ensures Messages(events + added, chan) == Messages(events, chan) + more
  {
    ConfirmedAppend(events, added, chan);
    ConfirmedIsPresent(events, chan);
    ConfirmedIsPresent(added, chan);
    BehindAppend(events, added, chan);
    MessagesAppend(events, added, chan);
    MessagesAppend(BehindConfirmation(events, chan), added, chan);
    SuffixAppend(Messages(events, chan), published, more);
    SuffixAppend(Messages(BehindConfirmation(events, chan), chan), published, more);
    assert published + [] == published;
  }

  /** A message for a subscribed channel is both published and sent. */
  lemma PublishKeepsChan(n: Net, chan: Chan, data: Data, c: Chan)
    requires ChanInv(n, c)
    ensures ChanInv(StepPublish(n, chan, data), c)
    ensures chan in n.server ==>
              Messages(StepPublish(n, chan, data).events, c) == Messages(n.events, c) + if c == chan then [data] else []
  {
    var message := [Message(chan, data)];
    ConfirmedAppend(n.events, message, c);
    if chan in n.server {
      var more := if c == chan then [data] else [];
      assert message[1..] == [] && Messages(message, c) == more && Confirmed(message, c) == Nothing;
      EventsKeepSuffix(n.events, message, c, PhaseOf(n.client, c), PublishedOn(n, c), more);
      assert PublishedOn(n, c) + more == PublishedOn(StepPublish(n, chan, data), c);
    }
  }

  lemma PublishKeepsReceiver(n: Net, chan: Chan, data: Data, r: ReplyId)
    requires r in n.receivers && ReceiverInv(n, r) && ChanInv(n, n.receivers[r].chan)
    ensures ReceiverInv(StepPublish(n, chan, data), r)
  {
    var n' := StepPublish(n, chan, data);
    var rc := n.receivers[r];
    PublishKeepsChan(n, chan, data, rc.chan);
    if chan == rc.chan {
      calc {
        rc.got + Messages(n'.events, chan);
        rc.got + (Messages(n.events, chan) + [data]);
        (rc.got + Messages(n.events, chan)) + [data];
        PublishedOn(n, chan)[rc.start..] + [data];
        PublishedOn(n', chan)[rc.start..];
      }
    } else if chan in n.server {
      assert Messages(n.events, rc.chan) + [] == Messages(n.events, rc.chan);
    }
  }

  lemma PublishKeepsInv(n: Net, chan: Chan, data: Data)
    requires Inv(n)
    ensures Inv(StepPublish(n, chan, data))
  {
    var n' := StepPublish(n, chan, data);
    SubsKept(n, n');
    forall c ensures ChanInv(n', c) {
      assert ChanInv(n, c);
      PublishKeepsChan(n, chan, data, c);
    }
    forall r | r in n'.receivers ensures ReceiverInv(n', r) {
      assert ReceiverInv(n, r) && ChanInv(n, n.receivers[r].chan);
      PublishKeepsReceiver(n, chan, data, r);
    }
  }

  lemma AnswerOf(command: Command, chan: Chan)
    requires command.Unsubscribe? ==> HasNoDuplicates(command.chans)
    ensures Confirmed(Answer(command), chan) == InCommand(command, chan)
    ensures Messages(Answer(command), chan) == []
    ensures IsAwaited(InCommand(command, chan)) ==> BehindConfirmation(Answer(command), chan) == []
  {
    if command.Unsubscribe? {
      ConfirmationsOf(command.chans, chan);
    } else {
      assert Answer(command)[1..] == [];
    }
  }

  /** The server takes the first request: it is confirmed, and decides the server's view. */
  lemma AgreeServe(phase: Phase, conf: Flight, x: Flight, req: Flight, on: bool)
    requires Agree(phase, conf, Join(x, req), on) && (x == On || x == Off)
    ensures Agree(phase, Join(conf, x), req, x == On)
  {
  }

  lemma ServeKeepsViews(n: Net, chan: Chan)
    requires n.commands != [] && ViewsAgree(n, chan)
    requires n.commands[0].Unsubscribe? ==> HasNoDuplicates(n.commands[0].chans)
    ensures ViewsAgree(StepServe(n, n.commands[0]), chan)
  {
    var command := n.commands[0];
    AnswerOf(command, chan);
    ConfirmedAppend(n.events, Answer(command), chan);
    if InCommand(command, chan) != Nothing {
      AgreeServe(PhaseOf(n.client, chan), Confirmed(n.events, chan), InCommand(command, chan),
                 Requested(n.commands[1..], chan), chan in n.server);
    }
  }

  lemma ServeKeepsChan(n: Net, chan: Chan)
    requires n.commands != [] && ChanInv(n, chan)
    requires n.commands[0].Unsubscribe? ==> HasNoDuplicates(n.commands[0].chans)
    ensures ChanInv(StepServe(n, n.commands[0]), chan)
    ensures Messages(StepServe(n, n.commands[0]).events, chan) == Messages(n.events, chan)
  {
    var command, published := n.commands[0], PublishedOn(n, chan);
    ServeKeepsViews(n, chan);
    AnswerOf(command, chan);
    EventsKeepSuffix(n.events, Answer(command), chan, PhaseOf(n.client, chan), published, []);
    assert published + [] == published;
  }

  lemma ServeKeepsInv(n: Net)
    requires Inv(n) && n.commands != []
    ensures Inv(StepServe(n, n.commands[0]))
  {
    var n' := StepServe(n, n.commands[0]);
    SubsKept(n, n');
    forall c ensures ChanInv(n', c) && Messages(n'.events, c) == Messages(n.events, c) {
      assert ChanInv(n, c);
      ServeKeepsChan(n, c);
    }
    forall r | r in n'.receivers ensures ReceiverInv(n', r) {
      assert ReceiverInv(n, r);
      ReceiverKept(n, n', r);
    }
  }

  // ---- The client reads ----

  lemma {:induction false} HandOutResult(receivers: map<ReplyId, Receiver>, replies: seq<ReplyId>, receiver: Receiver,
                                         r: ReplyId)
    ensures var m := HandOut(receivers, replies, receiver);
            && (r in m <==> r in receivers || r in replies)
            && (r in replies ==> m[r] == receiver)
            && (r in receivers && r !in replies ==> m[r] == receivers[r])
    decreases |replies|
  {
    if replies != [] {
      HandOutResult(receivers[replies[0] := receiver], replies[1..], receiver, r);
    }
  }

  /** The client reads the first confirmation: an unsubscription, or the only subscription in flight. */
  lemma AgreeRead(phase: Phase, x: Flight, conf: Flight, req: Flight, on: bool)
    requires Agree(phase, Join(x, conf), req, on) && (x == On || x == Off)
    ensures x == On ==> phase == Waiting && conf == Nothing && Agree(Live, conf, req, on)
    ensures x == Off ==> Agree(phase, conf, req, on)
  {
  }

  lemma ReadKeepsViews(n: Net, chan: Chan)
    requires n.events != [] && ViewsAgree(n, chan)
    ensures ViewsAgree(StepRead(n, n.events[0]), chan)
    ensures n.events[0] == Subscribed(chan) ==> PhaseOf(n.client, chan) == Waiting
  {
    var event, n' := n.events[0], StepRead(n, n.events[0]);
    ReadChangesPhase(n, chan);
    if InEvent(event, chan) != Nothing {
      AgreeRead(PhaseOf(n.client, chan), InEvent(event, chan), Confirmed(n.events[1..], chan),
                Requested(n.commands, chan), chan in n.server);
    }
  }

  /** Reading an event removes it from the pipe; only a confirmation changes a phase. */
  lemma ReadChangesPhase(n: Net, chan: Chan)
    requires n.events != []
    ensures var n' := StepRead(n, n.events[0]);
            && n'.commands == n.commands && n'.events == n.events[1..]
            && n'.server == n.server && n'.published == n.published && n'.asked == n.asked
            && PhaseOf(n'.client, chan) ==
               if n.events[0] == Subscribed(chan) && PhaseOf(n.client, chan) == Waiting then Live
               else PhaseOf(n.client, chan)
  {
    assert n.commands + [] == n.commands;
  }

  lemma ReadKeepsChan(n: Net, chan: Chan)
    requires n.events != [] && ChanInv(n, chan)
    ensures ChanInv(StepRead(n, n.events[0]), chan)
    ensures n.events[0] == Subscribed(chan) ==>
              PhaseOf(n.client, chan) == Waiting && PhaseOf(StepRead(n, n.events[0]).client, chan) == Live
  {
    ReadKeepsViews(n, chan);
    ReadChangesPhase(n, chan);
    ReadSkipsNothing(PhaseOf(n.client, chan), n.events, chan, PublishedOn(n, chan));
  }

  lemma {:induction false} NotAwaitedTwice(events: seq<Event>, chan: Chan)
    requires events != [] && events[0] == Subscribed(chan) && Confirmed(events, chan) != Jam
    ensures Confirmed(events, chan) == On && Confirmed(events[1..], chan) == Nothing
  {
  }

  lemma SuffixOfRest(x: seq<Data>, a: seq<Data>, b: seq<Data>)
    requires IsSuffix(x + a, b)
    ensures IsSuffix(a, b)
  {
  }

  lemma ReadSkipsNothing(phase: Phase, events: seq<Event>, chan: Chan, published: seq<Data>)
    requires events != [] && NothingSkipped(phase, events, chan, published)
    requires Confirmed(events, chan) != Jam && Confirmed(events[1..], chan) != Jam
    ensures events[0] != Subscribed(chan) ==> NothingSkipped(phase, events[1..], chan, published)
    ensures events[0] == Subscribed(chan) && phase == Waiting ==> NothingSkipped(Live, events[1..], chan, published)
  {
    match phase
    case Absent =>
    case Waiting =>
      if events[0] == Subscribed(chan) {
        NotAwaitedTwice(events, chan);
      } else {
        assert BehindConfirmation(events, chan) == BehindConfirmation(events[1..], chan);
      }
    case Live =>
      var first := if events[0].Message? && events[0].chan == chan then [events[0].data] else [];
      SuffixOfRest(first, Messages(events[1..], chan), published);
  }

  /** A message goes to exactly the receivers of its channel; other events go to none. */
  lemma ReadKeepsReceiver(n: Net, r: ReplyId)
    requires n.events != [] && !n.events[0].Subscribed? && SubsInv(n)
    requires r in n.receivers && ReceiverInv(n, r)
    ensures r in StepRead(n, n.events[0]).receivers && ReceiverInv(StepRead(n, n.events[0]), r)
  {
    var event, n', rc := n.events[0], StepRead(n, n.events[0]), n.receivers[r];
    if event.Message? && event.chan == rc.chan {
      assert n'.receivers[r] == rc.(got := rc.got + [event.data]);
      assert rc.got + [event.data] + Messages(n'.events, rc.chan) == rc.got + Messages(n.events, rc.chan);
    } else {
      assert n'.receivers[r] == rc;
      assert Messages(n'.events, rc.chan) == Messages(n.events, rc.chan);
    }
  }

  /** The waiting replies of `chan` become receivers; all others wait on. */
  lemma ConfirmKeepsPending(n: Net, chan: Chan, n': Net, c: Chan)
    requires PendingInv(n, c) && PendingInv(n, chan) && PhaseOf(n.client, chan) == Waiting
    requires n'.asked == n.asked && chan in n'.client.subs && n'.client.subs[chan].pending.None?
    requires c != chan ==> (c in n'.client.subs <==> c in n.client.subs)
    requires c != chan && c in n.client.subs ==> n'.client.subs[c] == n.client.subs[c]
    requires forall r :: r in n'.receivers ==> r in n.receivers || r in n.client.subs[chan].pending.value
    ensures PendingInv(n', c)
  {
    if c != chan && PhaseOf(n.client, c) == Waiting {
      forall r | r in n.client.subs[c].pending.value
        ensures WaitsFor(n', c, r)
      {
        assert WaitsFor(n, c, r);
        assert r in n.client.subs[chan].pending.value ==> WaitsFor(n, chan, r);
      }
    }
  }

  /** One receiver after the confirmation: a new one, or one of another channel. */
  lemma ConfirmKeepsReceiver(n: Net, chan: Chan, n': Net, receiver: Receiver, r: ReplyId)
    requires PendingInv(n, chan) && PhaseOf(n.client, chan) == Waiting && ChanInv(n', chan)
    requires var sub := n.client.subs[chan];
             && n' == n.(handed := n'.handed, events := n'.events,
                         client := n.client.(subs := n.client.subs[chan := sub.(pending := None)]),
                         receivers := HandOut(n.receivers, sub.pending.value, receiver))
             && receiver == Receiver(chan, sub.tx, Delivered(n', chan), [])
    requires forall c :: Messages(n'.events, c) == Messages(n.events, c)
    requires r in n'.receivers && (r in n.receivers ==> ReceiverInv(n, r))
    ensures ReceiverInv(n', r)
  {
    var pending := n.client.subs[chan].pending.value;
    HandOutResult(n.receivers, pending, receiver, r);
    if r in pending {
      assert WaitsFor(n, chan, r);
      HandOutKeeps(n', chan, r);
    } else {
      assert n.receivers[r].chan != chan;
      ReceiverKept(n, n', r);
    }
  }

  /** The confirmation arrives: the state after it, with every waiting reply handed a receiver. */
  lemma ReadSubscribedKeepsReceivers(n: Net, chan: Chan, n': Net, receiver: Receiver)
    requires SubsInv(n) && ReceiversInv(n) && PhaseOf(n.client, chan) == Waiting && ChanInv(n', chan)
    requires var sub := n.client.subs[chan];
             && n' == n.(handed := n'.handed, events := n'.events,
                         client := n.client.(subs := n.client.subs[chan := sub.(pending := None)]),
                         receivers := HandOut(n.receivers, sub.pending.value, receiver))
             && receiver == Receiver(chan, sub.tx, Delivered(n', chan), [])
    requires forall c :: Messages(n'.events, c) == Messages(n.events, c)
    ensures SubsInv(n') && ReceiversInv(n')
  {
    var pending := n.client.subs[chan].pending.value;
    assert PendingInv(n, chan);
    SameTx(n.client, chan, n'.client.subs[chan]);
    forall r | r in n'.receivers ensures r in n.receivers || r in pending {
      HandOutResult(n.receivers, pending, receiver, r);
    }
    forall c ensures PendingInv(n', c) {
      assert PendingInv(n, c);
      ConfirmKeepsPending(n, chan, n', c);
    }
    forall r | r in n'.receivers ensures ReceiverInv(n', r) {
      assert r in n.receivers ==> ReceiverInv(n, r);
      ConfirmKeepsReceiver(n, chan, n', receiver, r);
    }
  }

  lemma ReadSubscribedKeepsInv(n: Net, chan: Chan)
    requires Inv(n) && n.events != [] && n.events[0] == Subscribed(chan)
    ensures Inv(StepRead(n, n.events[0]))
  {
    var n' := StepRead(n, n.events[0]);
    forall c ensures ChanInv(n', c) {
      assert ChanInv(n, c);
      ReadKeepsChan(n, c);
    }
    assert ChanInv(n, chan);
    ReadKeepsChan(n, chan);
    assert n.commands + [] == n.commands;
    var receiver := Receiver(chan, n.client.subs[chan].tx, Delivered(n', chan), []);
    ReadSubscribedKeepsReceivers(n, chan, n', receiver);
  }

  lemma ReadOtherKeepsInv(n: Net)
    requires Inv(n) && n.events != [] && !n.events[0].Subscribed?
    ensures Inv(StepRead(n, n.events[0]))
  {
    var n' := StepRead(n, n.events[0]);
    assert n'.client == n.client && n'.commands == n.commands && n'.asked == n.asked;
    assert n'.receivers.Keys == n.receivers.Keys;
    SubsKept(n, n');
    forall c ensures ChanInv(n', c) {
      assert ChanInv(n, c);
      ReadKeepsChan(n, c);
    }
    forall r | r in n'.receivers ensures ReceiverInv(n', r) {
      assert ReceiverInv(n, r);
      ReadKeepsReceiver(n, r);
    }
  }

  lemma DropKeepsInv(n: Net, reply: ReplyId)
    requires Inv(n)
    ensures Inv(n.(receivers := n.receivers - {reply}))
  {
    var n' := n.(receivers := n.receivers - {reply});
    SubsKept(n, n');
    forall c ensures ChanInv(n', c) {
      assert ChanInv(n, c);
      SameChan(n, n', c);
    }
    forall r | r in n'.receivers ensures ReceiverInv(n', r) {
      assert ReceiverInv(n, r);
    }
  }

  // ---- Every run ----

  lemma StepKeepsInv(n: Net, a: Action, n': Net)
    requires Inv(n) && Step(n, a) == Some(n')
    ensures Inv(n')
  {
    match a
    case Ask(chan, reply) => AskKeepsInv(n, chan, reply);
    case Interval(order) => IntervalKeepsInv(n, order);
    case ReadEvent =>
      if n.events[0].Subscribed? {
        ReadSubscribedKeepsInv(n, n.events[0].chan);
      } else {
        ReadOtherKeepsInv(n);
      }
    case Serve => ServeKeepsInv(n);
    case PublishOnServer(chan, data) => PublishKeepsInv(n, chan, data);
    case DropReceiver(reply) => DropKeepsInv(n, reply);
  }

  lemma {:induction false} RunKeepsInv(nets: seq<Net>, actions: seq<Action>, i: nat)
    requires IsRun(nets, actions) && i <= |actions|
    ensures Inv(nets[i])
  {
    if i > 0 {
      RunKeepsInv(nets, actions, i - 1);
      StepKeepsInv(nets[i - 1], actions[i - 1], nets[i]);
    }
  }
}
