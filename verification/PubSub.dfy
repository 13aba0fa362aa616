/**
 The Redis pub/sub connection: the client's connection loop, the command pipe to the server, the
 server's subscription set, and the event pipe back. Both pipes are first-in first-out.

 A logical subscriber is named by the reply channel of its `subscribe` call; `tx` numbers the
 broadcast channels the loop creates. The server may interleave anything between reading commands.
 Broadcast receivers are taken to keep up (no more than the channel's capacity behind).
 */
module PubSub {
  import opened Wrappers

  /** Channel names and message bodies: only their equality matters. */
  type Chan(==, !new)
  type Data(==, !new)
  type ReplyId = nat
  type TxId = nat

  /** A tracked subscription: its broadcast channel, and the replies that await confirmation. */
  datatype Sub = Sub(tx: TxId, pending: Option<seq<ReplyId>>)

  datatype Command =
    | Subscribe(chan: Chan)
    | Unsubscribe(chans: seq<Chan>)
    | Ping

  datatype Event =
    | Message(chan: Chan, data: Data)
    | Subscribed(chan: Chan)
    | Unsubscribed(chan: Chan)
    | Pong

  /** What one turn of the loop does besides updating its map. */
  datatype Effects = Effects(
    commands: seq<Command>,                  // written to the server
    replies: seq<ReplyId>,                   // given a new receiver on `tx`
    forward: Option<Data>,                   // sent on the broadcast channel `tx`
    tx: TxId)

  const NO_EFFECTS := Effects([], [], None, 0)

  // ---- The loop's three kinds of turn, as functions on its map ----

  datatype Client = Client(subs: map<Chan, Sub>, nextTx: TxId)

  function OnCommand(c: Client, chan: Chan, reply: ReplyId): (Client, Effects) {
    if chan in c.subs then
      var sub := c.subs[chan];
      if sub.pending.Some? then
        (c.(subs := c.subs[chan := sub.(pending := Some(sub.pending.value + [reply]))]), NO_EFFECTS)
      else (c, Effects([], [reply], None, sub.tx))
    else
      (Client(c.subs[chan := Sub(c.nextTx, Some([reply]))], c.nextTx + 1),
       Effects([Command.Subscribe(chan)], [], None, 0))
  }

  predicate IsIdle(c: Client, liveTx: set<TxId>, chan: Chan) {
    chan in c.subs && c.subs[chan].pending.None? && c.subs[chan].tx !in liveTx
  }

  /** `order` is the order in which the map was walked: each idle channel once. */
  predicate IsWalk(c: Client, liveTx: set<TxId>, order: seq<Chan>) {
    && (forall i, j :: 0 <= i < j < |order| ==> order[i] != order[j])
    && (forall chan :: chan in order ==> IsIdle(c, liveTx, chan))
    && (forall chan :: chan in c.subs && IsIdle(c, liveTx, chan) ==> chan in order)
  }

  function OnInterval(c: Client, order: seq<Chan>): (Client, Effects) {
    if order == [] then (c, NO_EFFECTS.(commands := [Ping]))
    else (c.(subs := c.subs - (set chan | chan in order)), NO_EFFECTS.(commands := [Command.Unsubscribe(order)]))
  }

  function OnEvent(c: Client, event: Event): (Client, Effects) {
    match event
    case Message(chan, data) =>
      if chan in c.subs then (c, Effects([], [], Some(data), c.subs[chan].tx)) else (c, NO_EFFECTS)
    case Subscribed(chan) =>
      if chan in c.subs && c.subs[chan].pending.Some? then
        (c.(subs := c.subs[chan := c.subs[chan].(pending := None)]),
         Effects([], c.subs[chan].pending.value, None, c.subs[chan].tx))
      else (c, NO_EFFECTS)
    case Unsubscribed(_) => (c, NO_EFFECTS)
    case Pong => (c, NO_EFFECTS)
  }

  // ---- The loop's state, updated in place ----

  class ConnLoop {
    var subs: map<Chan, Sub>
    var nextTx: TxId

    constructor ()
      ensures View() == Client(map[], 0)
    {
      subs, nextTx := map[], 0;
    }

    function View(): Client
      reads this
    {
      Client(subs, nextTx)
    }

    /** A `subscribe` request: reply at once, wait for a pending confirmation, or ask the server. */
    method HandleCommand(chan: Chan, reply: ReplyId) returns (effects: Effects)
      modifies this
      ensures (View(), effects) == OnCommand(old(View()), chan, reply)
    {
      if chan in subs {
        var sub := subs[chan];
        if sub.pending.Some? {
          subs := subs[chan := sub.(pending := Some(sub.pending.value + [reply]))];
          effects := NO_EFFECTS;
        } else {
          effects := Effects([], [reply], None, sub.tx);
        }
      } else {
        subs := subs[chan := Sub(nextTx, Some([reply]))];
        nextTx := nextTx + 1;
        effects := Effects([Command.Subscribe(chan)], [], None, 0);
      }
    }

    /** The channels to unsubscribe from, in the order in which the map happens to be walked. */
    method CollectIdle(liveTx: set<TxId>) returns (toUnsub: seq<Chan>)
      ensures IsWalk(View(), liveTx, toUnsub)
    {
      toUnsub := [];
      var rest := subs.Keys;
      while rest != {}
        invariant rest <= subs.Keys
        invariant forall i, j :: 0 <= i < j < |toUnsub| ==> toUnsub[i] != toUnsub[j]
        invariant forall chan :: chan in toUnsub ==> chan !in rest && IsIdle(View(), liveTx, chan)
        invariant forall chan :: chan in subs && chan !in rest && IsIdle(View(), liveTx, chan) ==> chan in toUnsub
        decreases |rest|
      {
        var chan :| chan in rest;
        rest := rest - {chan};
        if subs[chan].pending.None? && subs[chan].tx !in liveTx {
          toUnsub := toUnsub + [chan];
        }
      }
    }

    method RemoveAll(chans: seq<Chan>)
      modifies this`subs
      ensures subs == old(subs) - (set chan | chan in chans)
    {
      var i := 0;
      while i < |chans|
        invariant i <= |chans|
        invariant subs == old(subs) - (set chan | chan in chans[..i])
      {
        subs := subs - {chans[i]};
        assert chans[..i + 1] == chans[..i] + [chans[i]];
        i := i + 1;
      }
      assert chans[..i] == chans;
    }

    /** The 20 second interval: drop every channel without receivers, or ping if there is none. */
    method HandleInterval(liveTx: set<TxId>) returns (effects: Effects, ghost toUnsub: seq<Chan>)
      modifies this
      ensures IsWalk(old(View()), liveTx, toUnsub)
      ensures (View(), effects) == OnInterval(old(View()), toUnsub)
    {
      var unsub := CollectIdle(liveTx);
      toUnsub := unsub;
      if unsub == [] {
        effects := NO_EFFECTS.(commands := [Ping]);
      } else {
        RemoveAll(unsub);
        effects := NO_EFFECTS.(commands := [Command.Unsubscribe(unsub)]);
      }
    }

    /** One event from the server. */
    method HandleRead(event: Event) returns (effects: Effects)
      modifies this
      ensures (View(), effects) == OnEvent(old(View()), event)
    {
      effects := NO_EFFECTS;
      match event {
        case Message(chan, data) =>
          if chan in subs {
            effects := Effects([], [], Some(data), subs[chan].tx);
          }
        case Subscribed(chan) =>
          if chan in subs {
            var sub := subs[chan];
            if sub.pending.Some? {
              subs := subs[chan := sub.(pending := None)];
              effects := Effects([], sub.pending.value, None, sub.tx);
            }
          }
        case Unsubscribed(_) =>
        case Pong =>
      }
    }
  }

  // ---- The whole connection ----

  /**
   A broadcast receiver handed to a subscriber: what it has been sent so far, and how many of the
   messages ever published on its channel came before the first one it can see.
   */
  datatype Receiver = Receiver(chan: Chan, tx: TxId, start: nat, got: seq<Data>)

  datatype Net = Net(
    client: Client,
    commands: seq<Command>,             // client to server
    server: set<Chan>,                  // channels the server has this connection subscribed to
    events: seq<Event>,                 // server to client
    receivers: map<ReplyId, Receiver>,  // live receivers
    asked: map<ReplyId, Chan>,          // every `subscribe` call so far
    handed: set<ReplyId>,               // the calls that were ever answered with a receiver
    published: map<Chan, seq<Data>>)    // every message ever published on the server

  datatype Action =
    | Ask(chan: Chan, reply: ReplyId)   // a `subscribe` call reaches the loop
    | Interval(order: seq<Chan>)
    | ReadEvent
    | Serve                             // the server processes the next command
    | PublishOnServer(chan: Chan, data: Data)
    | DropReceiver(reply: ReplyId)

  function PublishedOn(n: Net, chan: Chan): seq<Data> {
    if chan in n.published then n.published[chan] else []
  }

  /** The messages of one channel that are on their way to the client. */
  function Messages(events: seq<Event>, chan: Chan): (r: seq<Data>)
    ensures |r| <= |events|
  {
    if events == [] then []
    else (if events[0].Message? && events[0].chan == chan then [events[0].data] else []) + Messages(events[1..], chan)
  }

  function LiveTx(n: Net): set<TxId> {
    set r | r in n.receivers :: n.receivers[r].tx
  }

  /** How many messages published on a channel are not on their way to the client any more, or never were. */
  function Delivered(n: Net, chan: Chan): nat {
    if |PublishedOn(n, chan)| < |Messages(n.events, chan)| then 0
    else |PublishedOn(n, chan)| - |Messages(n.events, chan)|
  }

  /** Each answered reply channel becomes a receiver, one after the other. */
  function HandOut(receivers: map<ReplyId, Receiver>, replies: seq<ReplyId>, receiver: Receiver): map<ReplyId, Receiver>
    decreases |replies|
  {
    if replies == [] then receivers
    else HandOut(receivers[replies[0] := receiver], replies[1..], receiver)
  }

  /** Sending on a broadcast channel reaches all its receivers. */
  function Broadcast(receivers: map<ReplyId, Receiver>, tx: TxId, data: Data): map<ReplyId, Receiver> {
    map r | r in receivers ::
      if receivers[r].tx == tx then receivers[r].(got := receivers[r].got + [data]) else receivers[r]
  }

  /** Carry out what a turn of the loop asked for. */
  function Perform(n: Net, chan: Option<Chan>, client: Client, effects: Effects): Net {
    var receivers := if chan.None? then n.receivers
                     else HandOut(n.receivers, effects.replies,
                                  Receiver(chan.value, effects.tx, Delivered(n, chan.value), []));
    n.(client := client,
       commands := n.commands + effects.commands,
       receivers := if effects.forward.None? then receivers
                    else Broadcast(receivers, effects.tx, effects.forward.value),
       handed := if chan.None? then n.handed else n.handed + (set r | r in effects.replies))
  }

  function Confirmations(chans: seq<Chan>): seq<Event> {
    seq(|chans|, i requires 0 <= i < |chans| => Unsubscribed(chans[i]))
  }

  function StepAsk(n: Net, chan: Chan, reply: ReplyId): Net {
    var (client, effects) := OnCommand(n.client, chan, reply);
    Perform(n.(asked := n.asked[reply := chan]), Some(chan), client, effects)
  }

  function StepInterval(n: Net, order: seq<Chan>): Net {
    var (client, effects) := OnInterval(n.client, order);
    Perform(n, None, client, effects)
  }

  function StepRead(n: Net, event: Event): Net
    requires n.events != []
  {
    var (client, effects) := OnEvent(n.client, event);
    Perform(n.(events := n.events[1..]), if event.Pong? then None else Some(event.chan), client, effects)
  }

  /** What the server answers to a command. */
  function Answer(command: Command): seq<Event> {
    match command
    case Subscribe(chan) => [Subscribed(chan)]
    case Unsubscribe(chans) => Confirmations(chans)
    case Ping => [Pong]
  }

  function StepServe(n: Net, command: Command): Net
    requires n.commands != []
  {
    n.(commands := n.commands[1..],
       events := n.events + Answer(command),
       server := match command
         case Subscribe(chan) => n.server + {chan}
         case Unsubscribe(chans) => n.server - (set c | c in chans)
         case Ping => n.server)
  }

  function StepPublish(n: Net, chan: Chan, data: Data): Net {
    n.(published := n.published[chan := PublishedOn(n, chan) + [data]],
       events := if chan in n.server then n.events + [Message(chan, data)] else n.events)
  }

  function Step(n: Net, a: Action): Option<Net> {
    match a
    case Ask(chan, reply) => if reply in n.asked then None else Some(StepAsk(n, chan, reply))
    case Interval(order) => if IsWalk(n.client, LiveTx(n), order) then Some(StepInterval(n, order)) else None
    case ReadEvent => if n.events == [] then None else Some(StepRead(n, n.events[0]))
    case Serve => if n.commands == [] then None else Some(StepServe(n, n.commands[0]))
    case PublishOnServer(chan, data) => Some(StepPublish(n, chan, data))
    case DropReceiver(reply) =>
      if reply !in n.receivers then None else Some(n.(receivers := n.receivers - {reply}))
  }

  predicate IsInit(n: Net) {
    n == Net(Client(map[], 0), [], {}, [], map[], map[], {}, map[])
  }

  predicate IsRun(nets: seq<Net>, actions: seq<Action>) {
    && |nets| == |actions| + 1
    && IsInit(nets[0])
    && forall i {:trigger actions[i]} :: 0 <= i < |actions| ==> Step(nets[i], actions[i]) == Some(nets[i + 1])
  }
}
