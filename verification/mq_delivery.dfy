/**
  What becomes of a message in the broker: only a client that was registered for a topic and tag of its
  queue executes it, no failed write loses it, and wires and queues keep their order. The system is that
  of mq_broker.dfy.
 */
module MqDelivery {
  import opened MqBroker
  import opened Options
  import Text

  // ---------- Who executes a request ----------

  /** The registration is for that topic, and for all tags or for a list that has the tag. */
  predicate Matches(g: Grant, topic: string, tag: string) {
    g.topic == topic && (g.tag == "*" || tag in Text.Split(g.tag, "||"))
  }

  /** The client was registered so. */
  ghost predicate GrantedFor(l: Log, d: ClientId, topic: string, tag: string) {
    exists g :: g in l.granted && g.client == d && Matches(g, topic, tag)
  }

  /** The client was registered for a topic and tag that give a queue this name. */
  ghost predicate ServedFor(l: Log, d: ClientId, key: Key) {
    exists topic, tag :: GrantedFor(l, d, topic, tag) && KeyOf(topic, tag) == key && topic != "Mq"
  }

  ghost predicate MayExecute(l: Log, d: ClientId, m: MqMsg) {
    ServedFor(l, d, KeyOf(m.topic, m.tag)) && m.topic != "Mq" && m.tag != "*"
  }

  /** A queue holds requests that give its name, and its client was registered for the topic and tag
      that the queue was made for. */
  ghost predicate QueueRouted(l: Log, key: Key, q: Queue) {
    && (forall m :: m in q.messages ==> KeyOf(m.topic, m.tag) == key)
    && KeyOf(q.topic, q.tag) == key && q.topic != "Mq"
    && (q.client.Some? ==> GrantedFor(l, q.client.value, q.topic, q.tag))
  }

  ghost predicate ClientRouted(l: Log, d: ClientId, x: Client) {
    && (forall m :: m in x.down && m.typ == TypeCall ==> ServedFor(l, d, KeyOf(m.topic, m.tag)))
    && (forall m :: m in x.node.executing ==> MayExecute(l, d, m))
  }

  ghost predicate Known(s: State) {
    forall d: ClientId :: Listed(s, d) ==> Grant(d, s.clients[d].peer.topic, s.clients[d].peer.tag) in s.log.granted
  }

  ghost predicate Executed(s: State) {
    forall x :: x in s.log.executed ==> MayExecute(s.log, x.executor, x.request)
  }

  ghost predicate Routed(s: State) {
    && Known(s) && Executed(s)
    && (forall key :: key in s.queues ==> QueueRouted(s.log, key, s.queues[key]))
    && (forall d: ClientId :: d < |s.clients| ==> ClientRouted(s.log, d, s.clients[d]))
  }

  lemma GrantedGrows(l: Log, k: Log, d: ClientId, topic: string, tag: string)
    requires l.granted <= k.granted && GrantedFor(l, d, topic, tag)
    ensures GrantedFor(k, d, topic, tag)
  {
    var g :| g in l.granted && g.client == d && Matches(g, topic, tag);
    assert g in k.granted;
  }

  lemma ServedGrows(l: Log, k: Log, d: ClientId, key: Key)
    requires l.granted <= k.granted && ServedFor(l, d, key)
    ensures ServedFor(k, d, key)
  {
    hide GrantedFor, KeyOf;
    var topic, tag :| GrantedFor(l, d, topic, tag) && KeyOf(topic, tag) == key && topic != "Mq";
    GrantedGrows(l, k, d, topic, tag);
  }

  lemma ClientRoutedGrows(l: Log, k: Log, d: ClientId, x: Client)
    requires l.granted <= k.granted && ClientRouted(l, d, x)
    ensures ClientRouted(k, d, x)
  {
    hide ServedFor, KeyOf;
    forall m | m in x.down && m.typ == TypeCall
      ensures ServedFor(k, d, KeyOf(m.topic, m.tag))
    {
      ServedGrows(l, k, d, KeyOf(m.topic, m.tag));
    }
    forall m | m in x.node.executing
      ensures MayExecute(k, d, m)
    {
      ServedGrows(l, k, d, KeyOf(m.topic, m.tag));
    }
  }

  lemma QueueRoutedGrows(l: Log, k: Log, key: Key, q: Queue)
    requires l.granted <= k.granted && QueueRouted(l, key, q)
    ensures QueueRouted(k, key, q)
  {
    hide GrantedFor;
    if q.client.Some? {
      GrantedGrows(l, k, q.client.value, q.topic, q.tag);
    }
  }

  // ---------- What an event does to the log, to the queues and to a client ----------

  lemma LogStep(s: State, e: Event)
    requires Enabled(s, e)
    ensures var t := Apply(s, e);
      && s.log.granted <= t.log.granted
      && (!e.HandlerReturns? ==> t.log.executed == s.log.executed)
      && (e.HandlerReturns? ==>
            t.log.executed == s.log.executed + {Execution(e.c, s.clients[e.c].node.executing[e.i], e.result)})
  {
    hide Decide, Text.Trim, DoMqMsg, EndCall, Subscribes;
  }

  /** The message that the event puts into the queue. */
  function Enters(s: State, e: Event, key: Key): seq<MqMsg>
    requires Enabled(s, e)
  {
    if e.BrokerReads? && Decide(s.clients[e.c].peer, s.clients[e.c].up[0]) == Enqueue
       && KeyOf(s.clients[e.c].up[0].topic, s.clients[e.c].up[0].tag) == key
    then [s.clients[e.c].up[0]] else []
  }

  /** The message that the event takes out of the queue: the first one, by a write without error. */
  function Leaves(s: State, e: Event, key: Key): seq<MqMsg>
    requires Enabled(s, e)
  {
    if e == QueueWrites(key, Written) then [s.queues[key].messages[0]] else []
  }

  function Messages(s: State, key: Key): seq<MqMsg> {
    if key in s.queues then s.queues[key].messages else []
  }

  lemma HandleMessages(s: State, c: ClientId, x: Client, m: MqMsg, accepted: bool, key: Key)
    requires c < |s.clients|
    ensures var t := Handle(s, c, x, m, accepted);
      Messages(t, key) == Messages(s, key)
        + if Decide(x.peer, m) == Enqueue && KeyOf(m.topic, m.tag) == key then [m] else []
  {
    hide Decide, Text.Trim;
  }

  /** A queue is first in, first out, and only a write without error takes a message out. */
  lemma MessagesStep(s: State, e: Event, key: Key)
    requires Enabled(s, e)
    ensures Messages(s, key) + Enters(s, e, key) == Leaves(s, e, key) + Messages(Apply(s, e), key)
  {
    if e.BrokerReads? {
      hide Decide, Handle;
      var x := s.clients[e.c];
      HandleMessages(s, e.c, x.(up := x.up[1..]), x.up[0], e.accepted, key);
    } else {
      hide Handle, DoMqMsg, EndCall, BeginCall, Subscribes, Arrived, ReplyWritten;
      if e.QueueWrites? && e.key == key {
        var q := s.queues[key];
        assert q.messages == [q.messages[0]] + q.messages[1..];
      }
    }
  }

  function EnteredIn(s: State, es: seq<Event>, key: Key): seq<MqMsg>
    requires IsRun(s, es)
    decreases |es|
  {
    if es == [] then [] else Enters(s, es[0], key) + EnteredIn(Apply(s, es[0]), es[1..], key)
  }

  function LeftIn(s: State, es: seq<Event>, key: Key): seq<MqMsg>
    requires IsRun(s, es)
    decreases |es|
  {
    if es == [] then [] else Leaves(s, es[0], key) + LeftIn(Apply(s, es[0]), es[1..], key)
  }

  /** Over every run: what was queued and what was enqueued is, in order, what writes without error
      took and what is still queued. No failed write loses, repeats or reorders a request. */
  lemma {:induction false} NoRequestIsLost(s: State, es: seq<Event>, key: Key)
    requires IsRun(s, es)
    ensures Messages(s, key) + EnteredIn(s, es, key) == LeftIn(s, es, key) + Messages(After(s, es), key)
    decreases |es|
  {
    if es != [] {
      hide Enters, Leaves, Messages, Enabled, Apply;
      var t := Apply(s, es[0]);
      MessagesStep(s, es[0], key);
      NoRequestIsLost(t, es[1..], key);
      Splice(Messages(s, key), Enters(s, es[0], key), EnteredIn(t, es[1..], key), Leaves(s, es[0], key),
        Messages(t, key), LeftIn(t, es[1..], key), Messages(After(s, es), key));
    } else {
      assert Messages(s, key) + [] == [] + Messages(s, key);
    }
  }

  lemma Splice<T>(a: seq<T>, b: seq<T>, c: seq<T>, d: seq<T>, m: seq<T>, f: seq<T>, g: seq<T>)
    requires a + b == d + m && m + c == f + g
    ensures a + (b + c) == (d + f) + g
  {
    assert a + (b + c) == (a + b) + c;
    assert (d + m) + c == d + (m + c);
    assert d + (f + g) == (d + f) + g;
  }

  // ---------- The outbox of a client ----------

  /** The replies that the event puts into the outbox of client `d`: the broker's own answer to `d`, or
      a response that some client sent for the harbor of `d`. */
  function Answered(s: State, e: Event, d: ClientId): seq<MqMsg>
    requires Enabled(s, e) && d < |s.clients|
  {
    if !e.BrokerReads? then [] else
    var p, m := s.clients[e.c].peer, s.clients[e.c].up[0];
    match Decide(p, m)
    case Register =>
      if e.c == d && e.accepted then [ReplyMqMsg(s.harborCount + 1, m.seq_, RegisterReply(s.harborCount + 1))] else []
    case StopSubscribe => if e.c == d then [ReplyMqMsg(p.harbor, m.seq_, NilStruct)] else []
    case Close => if e.c == d then [ReplyMqMsg(p.harbor, m.seq_, NilStruct)] else []
    case Respond => if m.harbor in s.harborClient && s.harborClient[m.harbor] == d then [m] else []
    case _ => []
  }

  function Replied(s: State, e: Event, d: ClientId): seq<MqMsg>
    requires Enabled(s, e)
  {
    if e == ReplyWrites(d, Written) then [s.clients[d].peer.outbox[0]] else []
  }

  function Outbox(s: State, d: ClientId): seq<MqMsg> {
    if d < |s.clients| then s.clients[d].peer.outbox else []
  }

  lemma RespondOutbox(s: State, e: Event, d: ClientId)
    requires Enabled(s, e) && d < |s.clients| && e.BrokerReads?
    requires Decide(s.clients[e.c].peer, s.clients[e.c].up[0]) == Respond
    ensures Outbox(Apply(s, e), d) == Outbox(s, d) + Answered(s, e, d)
  {
    hide Decide;
  }

  lemma HandleOutbox(s: State, e: Event, d: ClientId)
    requires Enabled(s, e) && d < |s.clients| && e.BrokerReads?
    ensures Outbox(Apply(s, e), d) == Outbox(s, d) + Answered(s, e, d)
  {
    if Decide(s.clients[e.c].peer, s.clients[e.c].up[0]) == Respond {
      RespondOutbox(s, e, d);
      hide Apply, Decide, Answered;
    } else {
      hide Decide, Text.Trim;
    }
  }

  lemma OutboxStep(s: State, e: Event, d: ClientId)
    requires Enabled(s, e) && d < |s.clients|
    ensures d < |Apply(s, e).clients|
    ensures Outbox(s, d) + Answered(s, e, d) == Replied(s, e, d) + Outbox(Apply(s, e), d)
  {
    if e.BrokerReads? {
      hide Answered, Decide;
      HandleOutbox(s, e, d);
      HandleLength(s, e);
    } else {
      hide Handle, DoMqMsg, EndCall, BeginCall, Subscribes;
      if e == ReplyWrites(d, Written) {
        var out := s.clients[d].peer.outbox;
        assert out == [out[0]] + out[1..];
      }
    }
  }

  lemma HandleLength(s: State, e: Event)
    requires Enabled(s, e) && e.BrokerReads?
    ensures |Apply(s, e).clients| == |s.clients|
  {
    hide Decide, Text.Trim;
  }

  function AnsweredIn(s: State, es: seq<Event>, d: ClientId): seq<MqMsg>
    requires IsRun(s, es) && d < |s.clients|
    decreases |es|
  {
    if es == [] then [] else
    OutboxStep(s, es[0], d);
    Answered(s, es[0], d) + AnsweredIn(Apply(s, es[0]), es[1..], d)
  }

  function RepliedIn(s: State, es: seq<Event>, d: ClientId): seq<MqMsg>
    requires IsRun(s, es)
    decreases |es|
  {
    if es == [] then [] else Replied(s, es[0], d) + RepliedIn(Apply(s, es[0]), es[1..], d)
  }

  /** The same for the replies to a client: every answer for its harbor is written without error or
      still waits, in order. */
  lemma {:induction false} NoReplyIsLost(s: State, es: seq<Event>, d: ClientId)
    requires IsRun(s, es) && d < |s.clients|
    ensures Outbox(s, d) + AnsweredIn(s, es, d) == RepliedIn(s, es, d) + Outbox(After(s, es), d)
    decreases |es|
  {
    if es != [] {
      hide Answered, Replied, Outbox, Enabled, Apply;
      var t := Apply(s, es[0]);
      OutboxStep(s, es[0], d);
      NoReplyIsLost(t, es[1..], d);
      Splice(Outbox(s, d), Answered(s, es[0], d), AnsweredIn(t, es[1..], d), Replied(s, es[0], d), Outbox(t, d),
        RepliedIn(t, es[1..], d), Outbox(After(s, es), d));
    } else {
      assert Outbox(s, d) + [] == [] + Outbox(s, d);
    }
  }

  // ---------- The wires ----------

  /** A wire after an event: it loses its first message to the reader, or everything behind some point
      when it breaks, or gains one message at the end unless it is broken. */
  predicate WireFollows(w: seq<MqMsg>, v: seq<MqMsg>, broken: bool, read: bool, breaks: bool) {
    if read then w != [] && v == w[1..]
    else if breaks then v <= w
    else v == w || (!broken && |v| == |w| + 1 && w <= v)
  }

  lemma WireStep(s: State, e: Event, d: ClientId)
    requires Enabled(s, e) && d < |s.clients|
    ensures d < |Apply(s, e).clients|
    ensures var x, y := s.clients[d], Apply(s, e).clients[d];
      && WireFollows(x.up, y.up, x.broken, e.BrokerReads? && e.c == d, Breaks(e, d))
      && WireFollows(x.down, y.down, x.broken, e.ClientReads? && e.c == d, Breaks(e, d))
  {
    if e.BrokerReads? {
      hide WireFollows;
      HandleWires(s, e, d);
    } else {
      hide Handle, DoMqMsg, EndCall, BeginCall, Subscribes;
    }
  }

  /** Of a client's record, handling a message touches the wire it was read from and what the broker
      keeps, no more. */
  predicate RestStays(x: Client, y: Client) {
    y.up == x.up && y.down == x.down && y.broken == x.broken && y.node == x.node
  }

  lemma RestOfHandle(s: State, c: ClientId, x: Client, m: MqMsg, accepted: bool, d: ClientId)
    requires c < |s.clients| && d < |s.clients| && x == s.clients[c].(up := x.up)
    ensures d < |Handle(s, c, x, m, accepted).clients|
    ensures RestStays(if d == c then x else s.clients[d], Handle(s, c, x, m, accepted).clients[d])
  {
    if Decide(x.peer, m) == Respond {
      RestOfRespond(s, c, x, m, accepted, d);
      hide Handle, Decide;
    } else {
      hide Decide, Text.Trim;
    }
  }

  lemma RestOfRespond(s: State, c: ClientId, x: Client, m: MqMsg, accepted: bool, d: ClientId)
    requires c < |s.clients| && d < |s.clients| && Decide(x.peer, m) == Respond
    ensures d < |Handle(s, c, x, m, accepted).clients|
    ensures RestStays(if d == c then x else s.clients[d], Handle(s, c, x, m, accepted).clients[d])
  {
    hide Decide;
  }

  lemma HandleWires(s: State, e: Event, d: ClientId)
    requires Enabled(s, e) && d < |s.clients| && e.BrokerReads?
    ensures d < |Apply(s, e).clients|
    ensures var x, y := s.clients[d], Apply(s, e).clients[d];
      && WireFollows(x.up, y.up, x.broken, e.c == d, false) && WireFollows(x.down, y.down, x.broken, false, false)
  {
    hide Handle;
    var x := s.clients[e.c];
    RestOfHandle(s, e.c, x.(up := x.up[1..]), x.up[0], e.accepted, d);
  }

  /** A client acts on the first message of its wire: it begins to execute a request, completes the
      pending call of a response, and ignores the broker's notices. */
  lemma ClientActsOnFirst(s: State, c: ClientId)
    requires Enabled(s, ClientReads(c))
    ensures var n, k, m := s.clients[c].node, Apply(s, ClientReads(c)).clients[c].node, s.clients[c].down[0];
      if m.topic == "Mq" || m.tag == "*" then k == n
      else if m.typ == TypeCall then k == n.(executing := n.executing + [m])
      else if m.seq_ in n.pending then
        k.slots == n.slots[m.seq_ := m] && k.pending == n.pending - {m.seq_} && k.executing == n.executing
      else k == n
  {
  }

  /** A write to a client of which the broker learns no error arrives, unless the connection is broken;
      one that fails before all was written does not. */
  lemma WriteArrives(s: State, key: Key, w: Write)
    requires Enabled(s, QueueWrites(key, w))
    ensures var d, m := s.queues[key].client.value, s.queues[key].messages[0];
      && d < |s.clients| == |Apply(s, QueueWrites(key, w)).clients|
      && Apply(s, QueueWrites(key, w)).clients[d].down ==
           if w != Unsent && !s.clients[d].broken then s.clients[d].down + [m] else s.clients[d].down
  {
  }

  // ---------- Every event keeps the routing ----------

  /** A client that the broker's indexes have afterwards was there before, or has just registered. */
  predicate ListingFollows(s: State, t: State, d: ClientId) {
    Listed(t, d) ==>
      || (Listed(s, d)
          && t.clients[d].peer.topic == s.clients[d].peer.topic && t.clients[d].peer.tag == s.clients[d].peer.tag)
      || Grant(d, t.clients[d].peer.topic, t.clients[d].peer.tag) in t.log.granted
  }

  lemma ListingRegister(s: State, c: ClientId, x: Client, m: MqMsg, accepted: bool, d: ClientId)
    requires c < |s.clients| && Decide(x.peer, m) == Register
    ensures ListingFollows(s, Handle(s, c, x, m, accepted), d)
  {
    hide Text.Trim, Decide, Subscribes;
  }

  lemma ListingRespond(s: State, c: ClientId, x: Client, m: MqMsg, accepted: bool, d: ClientId)
    requires c < |s.clients| && Decide(x.peer, m) == Respond && x == s.clients[c].(up := x.up)
    ensures ListingFollows(s, Handle(s, c, x, m, accepted), d)
  {
    hide Decide;
  }

  lemma ListingHandle(s: State, c: ClientId, x: Client, m: MqMsg, accepted: bool, d: ClientId)
    requires c < |s.clients| && x == s.clients[c].(up := x.up)
    ensures ListingFollows(s, Handle(s, c, x, m, accepted), d)
  {
    if Decide(x.peer, m) == Register {
      ListingRegister(s, c, x, m, accepted, d);
      hide Handle, Decide;
    } else if Decide(x.peer, m) == Respond {
      ListingRespond(s, c, x, m, accepted, d);
      hide Handle, Decide;
    } else {
      hide Decide;
    }
  }

  lemma ListingStep(s: State, e: Event, d: ClientId)
    requires Enabled(s, e) && 0 !in s.harborClient
    ensures ListingFollows(s, Apply(s, e), d)
  {
    if e.BrokerReads? {
      hide Handle, Decide, ListingFollows;
      var x := s.clients[e.c];
      ListingHandle(s, e.c, x.(up := x.up[1..]), x.up[0], e.accepted, d);
    } else {
      hide Handle, DoMqMsg, EndCall, BeginCall, Subscribes, QueueTested, QueueConnected, QueueWritten;
    }
  }

  lemma KnownStep(s: State, e: Event)
    requires Inv(s) && Known(s) && Enabled(s, e)
    ensures Known(Apply(s, e))
  {
    assert 0 !in s.harborClient;
    LogStep(s, e);
    hide Inv, Apply;
    var t := Apply(s, e);
    forall d: ClientId | Listed(t, d)
      ensures Grant(d, t.clients[d].peer.topic, t.clients[d].peer.tag) in t.log.granted
    {
      ListingStep(s, e, d);
    }
  }

  lemma ListedIsGranted(s: State, d: ClientId, topic: string, tag: string)
    requires Known(s) && Listed(s, d) && Subscribes(s.clients[d].peer, topic, tag)
    ensures GrantedFor(s.log, d, topic, tag)
  {
    var p := s.clients[d].peer;
    assert Grant(d, p.topic, p.tag) in s.log.granted;
  }

  lemma QueueRoutedStep(s: State, e: Event, key: Key)
    requires Inv(s) && Routed(s) && Enabled(s, e) && key in Apply(s, e).queues
    ensures QueueRouted(Apply(s, e).log, key, Apply(s, e).queues[key])
  {
    var t := Apply(s, e);
    LogStep(s, e);
    MessagesStep(s, e, key);
    ClientOfQueue(s, e, key);
    hide GrantedFor, Apply, Inv, ClientRouted, Known, Executed, KeyOf, Decide;
    if key in s.queues {
      QueueRoutedGrows(s.log, t.log, key, s.queues[key]);
    }
    var q := t.queues[key];
    forall m | m in q.messages
      ensures KeyOf(m.topic, m.tag) == key
    {
      assert m in Messages(s, key) + Enters(s, e, key);
    }
  }

  /** A queue keeps its topic and tag; its client is the one it had, or has just been looked up. */
  predicate Keeps(s: State, t: State, key: Key) {
    && key in s.queues && key in t.queues
    && t.queues[key].topic == s.queues[key].topic && t.queues[key].tag == s.queues[key].tag
  }

  lemma ClientOfQueue(s: State, e: Event, key: Key)
    requires Inv(s) && Known(s) && Enabled(s, e) && key in Apply(s, e).queues
    ensures var t, q := Apply(s, e), Apply(s, e).queues[key];
      && (key in s.queues ==> Keeps(s, t, key))
      && (key !in s.queues ==> KeyOf(q.topic, q.tag) == key && q.topic != "Mq")
      && (q.client.Some? ==>
            (key in s.queues && s.queues[key].client == q.client) || GrantedFor(t.log, q.client.value, q.topic, q.tag))
  {
    hide ClientOk, QueueOk, GrantedFor, Subscribes;
    if IsQueueEvent(e, key) {
      if e.QueueLooksUp? {
        ListedIsGranted(s, e.d, s.queues[key].topic, s.queues[key].tag);
      }
    } else {
      QueueStep(s, e, key);
      if key !in s.queues {
        NewQueue(s, e, key);
      }
      hide Apply, Inv, Known, KeyOf;
    }
  }

  lemma NewQueue(s: State, e: Event, key: Key)
    requires Enabled(s, e) && key !in s.queues && key in Apply(s, e).queues
    ensures var q := Apply(s, e).queues[key]; KeyOf(q.topic, q.tag) == key && q.topic != "Mq"
  {
    hide DoMqMsg, EndCall, BeginCall, Subscribes, Handle, QueueTested, QueueConnected, QueueWritten;
    if e.BrokerReads? {
      var x := s.clients[e.c];
      NewQueueOf(s, e.c, x.(up := x.up[1..]), x.up[0], e.accepted, key);
    }
  }

  lemma NewQueueOf(s: State, c: ClientId, x: Client, m: MqMsg, accepted: bool, key: Key)
    requires c < |s.clients| && key !in s.queues && key in Handle(s, c, x, m, accepted).queues
    ensures var q := Handle(s, c, x, m, accepted).queues[key]; KeyOf(q.topic, q.tag) == key && q.topic != "Mq"
  {
    OnlyRegisteredClientsAreHeard(x.peer, m);
    hide Decide, Text.Trim, KeyOf;
  }

  lemma ExecutedStep(s: State, e: Event)
    requires Routed(s) && Enabled(s, e)
    ensures Executed(Apply(s, e))
  {
    var t := Apply(s, e);
    LogStep(s, e);
    hide ServedFor, KeyOf, Apply, Known, QueueRouted;
    forall x | x in t.log.executed
      ensures MayExecute(t.log, x.executor, x.request)
    {
      if x !in s.log.executed {
        assert ClientRouted(s.log, e.c, s.clients[e.c]);
        assert x.request in s.clients[e.c].node.executing;
      }
      ServedGrows(s.log, t.log, x.executor, KeyOf(x.request.topic, x.request.tag));
    }
  }

  /** What is on its way to a client as a request comes from its wire or from a queue. */
  lemma WireSources(s: State, e: Event, d: ClientId)
    requires Inv(s) && Enabled(s, e) && d < |s.clients| && !e.BrokerReads?
    ensures d < |Apply(s, e).clients|
    ensures forall m :: m in Apply(s, e).clients[d].down && m.typ == TypeCall ==>
      m in s.clients[d].down || FromQueue(s, e, d, m)
  {
    hide Handle, DoMqMsg, EndCall, BeginCall, Subscribes, BrokerOk, QueueOk, NodeOk, UpOk, DownOk;
    assert ClientOk(s.log, d, s.clients[d]);
    if e.QueueWrites? && s.queues[e.key].client == Some(d) {
      assert WritesTo(s, e, e.key, d);
    }
  }

  ghost predicate FromQueue(s: State, e: Event, d: ClientId, m: MqMsg) {
    exists key :: WritesTo(s, e, key, d) && s.queues[key].messages != [] && m == s.queues[key].messages[0]
  }

  lemma NodeSources(s: State, e: Event, d: ClientId)
    requires Enabled(s, e) && d < |s.clients| && !e.BrokerReads?
    ensures d < |Apply(s, e).clients|
    ensures forall m :: m in Apply(s, e).clients[d].node.executing ==>
      m in s.clients[d].node.executing
      || (m in s.clients[d].down && m.typ == TypeCall && m.topic != "Mq" && m.tag != "*")
  {
    hide Handle, Subscribes, QueueTested, QueueConnected, QueueWritten, Sent;
    assert forall i: nat, ms: seq<MqMsg>, m :: i < |ms| && m in Without(ms, i) ==> m in ms;
    assert e.ClientReads? ==> s.clients[e.c].down[0] in s.clients[e.c].down;
  }

  lemma SourcesStep(s: State, e: Event, d: ClientId)
    requires Inv(s) && Enabled(s, e) && d < |s.clients|
    ensures d < |Apply(s, e).clients|
    ensures var x, y := s.clients[d], Apply(s, e).clients[d];
      && (forall m :: m in y.down && m.typ == TypeCall ==> m in x.down || FromQueue(s, e, d, m))
      && (forall m :: m in y.node.executing ==>
            m in x.node.executing || (m in x.down && m.typ == TypeCall && m.topic != "Mq" && m.tag != "*"))
  {
    hide Inv, FromQueue;
    if e.BrokerReads? {
      hide Handle;
      HandleSources(s, e, d);
    } else {
      hide Apply;
      WireSources(s, e, d);
      NodeSources(s, e, d);
    }
  }

  lemma HandleSources(s: State, e: Event, d: ClientId)
    requires Enabled(s, e) && d < |s.clients| && e.BrokerReads?
    ensures d < |Apply(s, e).clients|
    ensures Apply(s, e).clients[d].down == s.clients[d].down && Apply(s, e).clients[d].node == s.clients[d].node
  {
    hide Handle;
    var x := s.clients[e.c];
    RestOfHandle(s, e.c, x.(up := x.up[1..]), x.up[0], e.accepted, d);
  }

  lemma ClientRoutedStep(s: State, e: Event, d: ClientId)
    requires Inv(s) && Routed(s) && Enabled(s, e) && d < |s.clients|
    ensures d < |Apply(s, e).clients| && ClientRouted(Apply(s, e).log, d, Apply(s, e).clients[d])
  {
    SourcesStep(s, e, d);
    LogStep(s, e);
    hide GrantedFor, Apply, Inv, Known, Executed;
    var t := Apply(s, e);
    var x, y := s.clients[d], t.clients[d];
    assert ClientRouted(s.log, d, x);
    ClientRoutedGrows(s.log, t.log, d, x);
    forall m | m in y.down && m.typ == TypeCall
      ensures ServedFor(t.log, d, KeyOf(m.topic, m.tag))
    {
      if m !in x.down {
        var key :| WritesTo(s, e, key, d) && s.queues[key].messages != [] && m == s.queues[key].messages[0];
        assert QueueRouted(s.log, key, s.queues[key]) && m in s.queues[key].messages;
        GrantedGrows(s.log, t.log, d, s.queues[key].topic, s.queues[key].tag);
      }
    }
  }

  lemma RoutedStep(s: State, e: Event)
    requires Inv(s) && Routed(s) && Enabled(s, e)
    ensures Routed(Apply(s, e))
  {
    var t := Apply(s, e);
    KnownStep(s, e);
    ExecutedStep(s, e);
    NewClients(s, e);
    hide Apply, Inv, Known, Executed, QueueRouted, ClientRouted;
    forall key | key in t.queues
      ensures QueueRouted(t.log, key, t.queues[key])
    {
      QueueRoutedStep(s, e, key);
    }
    forall d: ClientId | d < |t.clients|
      ensures ClientRouted(t.log, d, t.clients[d])
    {
      if d < |s.clients| {
        ClientRoutedStep(s, e, d);
      } else {
        NewClientRouted(t.log, d);
      }
    }
  }

  lemma NewClientRouted(l: Log, d: ClientId)
    ensures ClientRouted(l, d, NEW_CLIENT)
  {
  }

  lemma NewClients(s: State, e: Event)
    requires Enabled(s, e)
    ensures forall d: ClientId :: |s.clients| <= d < |Apply(s, e).clients| ==> Apply(s, e).clients[d] == NEW_CLIENT
  {
    hide Decide, Text.Trim, DoMqMsg, EndCall, Subscribes;
  }

  lemma {:induction false} RoutedRun(s: State, es: seq<Event>)
    requires Inv(s) && Routed(s) && IsRun(s, es)
    ensures Routed(After(s, es))
    decreases |es|
  {
    if es != [] {
      RoutedStep(s, es[0]);
      InvStep(s, es[0]);
      hide Inv, Routed, Apply, Enabled;
      RoutedRun(Apply(s, es[0]), es[1..]);
    }
  }

  /** In every reachable state, whoever executed a request had been accepted under a topic and tag that
      match the request's own, or others that give a queue the same name; no one executes the broker's
      notices. */
  lemma ExecutorWasRegistered(s: State, x: Execution)
    requires Reachable(s) && x in s.log.executed
    ensures x.request.topic != "Mq" && x.request.tag != "*"
    ensures exists g, tag ::
      (g in s.log.granted && g.client == x.executor && (g.tag == "*" || tag in Text.Split(g.tag, "||"))
       && g.topic + "_" + tag == x.request.topic + "_" + x.request.tag && g.topic != "Mq")
  {
    var es :| IsRun(INITIAL, es) && After(INITIAL, es) == s;
    RoutedRun(INITIAL, es);
    assert MayExecute(s.log, x.executor, x.request);
    hide GrantedFor;
    var topic, tag :| GrantedFor(s.log, x.executor, topic, tag)
      && KeyOf(topic, tag) == KeyOf(x.request.topic, x.request.tag) && topic != "Mq";
    GrantOfFor(s.log, x.executor, topic, tag);
  }

  lemma GrantOfFor(l: Log, d: ClientId, topic: string, tag: string)
    requires GrantedFor(l, d, topic, tag)
    ensures exists g :: g in l.granted && g.client == d && Matches(g, topic, tag) && g.topic == topic
  {
  }

  /** A registration enters the history exactly when the broker accepts it, with topic and tag trimmed,
      and then its client is sent the harbor. */
  lemma GrantStep(s: State, e: Event)
    requires Enabled(s, e)
    ensures Apply(s, e).log.granted == s.log.granted ||
      (e.BrokerReads? && e.accepted && IsRegistration(s.clients[e.c].up[0])
       && Outbox(Apply(s, e), e.c) == Outbox(s, e.c) + Answered(s, e, e.c) && Answered(s, e, e.c) != []
       && Answered(s, e, e.c)[0].body == RegisterReply(s.harborCount + 1)
       && var b := s.clients[e.c].up[0].body;
          b.RegisterRequest? && Apply(s, e).log.granted == s.log.granted + {GrantOf(e.c, b.topic, b.tag)})
  {
    if e.BrokerReads? && Decide(s.clients[e.c].peer, s.clients[e.c].up[0]) == Register {
      HandleOutbox(s, e, e.c);
      hide Text.Trim, Outbox;
    } else {
      hide Text.Trim, Decide, DoMqMsg, EndCall, Subscribes;
    }
  }

  // ---------- How often a request is executed ----------

  /** How often client `d` is executing `m`. */
  function Copies(s: State, d: ClientId, m: MqMsg): nat {
    if d < |s.clients| then multiset(s.clients[d].node.executing)[m] else 0
  }

  /** Client `d` takes the request `m` off its wire and begins with it. */
  predicate Begins(s: State, e: Event, d: ClientId, m: MqMsg)
    requires Enabled(s, e)
  {
    e == ClientReads(d) && s.clients[d].down[0] == m && m.typ == TypeCall && m.topic != "Mq" && m.tag != "*"
  }

  /** A handler of `m` ends, with a result or a panic. */
  predicate Ends(s: State, e: Event, d: ClientId, m: MqMsg)
    requires Enabled(s, e)
  {
    (e.HandlerReturns? || e.HandlerPanics?) && e.c == d && s.clients[d].node.executing[e.i] == m
  }

  function One(b: bool): nat {
    if b then 1 else 0
  }

  lemma WithoutOne(ms: seq<MqMsg>, i: nat)
    requires i < |ms|
    ensures multiset(ms) == multiset(Without(ms, i)) + multiset{ms[i]}
  {
    assert ms == ms[..i] + ([ms[i]] + ms[i + 1..]);
  }

  /** Only its own reads and handlers change what a client executes. */
  lemma ExecutingKept(s: State, e: Event, d: ClientId)
    requires Enabled(s, e) && d < |s.clients|
    requires !((e.ClientReads? || e.HandlerReturns? || e.HandlerPanics?) && e.c == d)
    ensures d < |Apply(s, e).clients| && Apply(s, e).clients[d].node.executing == s.clients[d].node.executing
  {
    if e.BrokerReads? {
      hide Apply;
      HandleSources(s, e, d);
    } else {
      hide Handle, Subscribes, QueueTested, QueueConnected, QueueWritten, Sent, Without, DoMqMsg;
    }
  }

  lemma ExecutingChanged(s: State, e: Event)
    requires Enabled(s, e) && (e.ClientReads? || e.HandlerReturns? || e.HandlerPanics?)
    ensures e.c < |s.clients| == |Apply(s, e).clients|
    ensures var x, y := s.clients[e.c].node.executing, Apply(s, e).clients[e.c].node.executing;
      if e.ClientReads? then
        var m := s.clients[e.c].down[0];
        y == if m.typ == TypeCall && m.topic != "Mq" && m.tag != "*" then x + [m] else x
      else e.i < |x| && y == Without(x, e.i)
  {
    hide Without;
  }

  lemma ExecutingStep(s: State, e: Event, d: ClientId, m: MqMsg)
    requires Enabled(s, e)
    ensures Copies(s, d, m) + One(Begins(s, e, d, m)) == One(Ends(s, e, d, m)) + Copies(Apply(s, e), d, m)
  {
    if (e.ClientReads? || e.HandlerReturns? || e.HandlerPanics?) && e.c == d {
      ExecutingChanged(s, e);
      if !e.ClientReads? {
        WithoutOne(s.clients[d].node.executing, e.i);
      }
      hide Apply;
    } else if d < |s.clients| {
      ExecutingKept(s, e, d);
      hide Apply;
    } else {
      NewClients(s, e);
      hide Apply;
    }
  }

  function BegunIn(s: State, es: seq<Event>, d: ClientId, m: MqMsg): nat
    requires IsRun(s, es)
    decreases |es|
  {
    if es == [] then 0 else One(Begins(s, es[0], d, m)) + BegunIn(Apply(s, es[0]), es[1..], d, m)
  }

  function EndedIn(s: State, es: seq<Event>, d: ClientId, m: MqMsg): nat
    requires IsRun(s, es)
    decreases |es|
  {
    if es == [] then 0 else One(Ends(s, es[0], d, m)) + EndedIn(Apply(s, es[0]), es[1..], d, m)
  }

  /** Over every run a client executes a request once for each time that it takes it off its wire: as
      often as it was or began to be executed, it has ended or is still being executed. */
  lemma {:induction false} OneExecutionForEachDelivery(s: State, es: seq<Event>, d: ClientId, m: MqMsg)
    requires IsRun(s, es)
    ensures Copies(s, d, m) + BegunIn(s, es, d, m) == EndedIn(s, es, d, m) + Copies(After(s, es), d, m)
    decreases |es|
  {
    if es != [] {
      hide Copies, Begins, Ends, Enabled, Apply, One;
      ExecutingStep(s, es[0], d, m);
      OneExecutionForEachDelivery(Apply(s, es[0]), es[1..], d, m);
    }
  }

  // ---------- Harbors that are gone ----------

  predicate Drops(s: State, e: Event, h: nat) {
    || (e.ErrorReported? && e.c < |s.clients| && s.clients[e.c].peer.harbor == h)
    || (e.BrokerReads? && e.c < |s.clients| && s.clients[e.c].up != [] && s.clients[e.c].peer.harbor == h
        && Decide(s.clients[e.c].peer, s.clients[e.c].up[0]) in {CloseSelf, Close})
  }

  lemma GoneStep(s: State, e: Event, h: nat)
    requires Inv(s) && Enabled(s, e) && (h !in s.harborClient || Drops(s, e, h)) && h <= s.harborCount
    ensures h !in Apply(s, e).harborClient && h <= Apply(s, e).harborCount
  {
    hide Text.Trim, Decide, ClientOk, QueueOk, DoMqMsg, EndCall, Subscribes;
  }

  /** A reported error, a close and a violation of the protocol take the client's harbor out of the
      index; no later event brings it back, so no response is routed there any more. */
  lemma {:induction false} HarborNeverReturns(s: State, es: seq<Event>, h: nat)
    requires Inv(s) && IsRun(s, es) && h <= s.harborCount
    requires h !in s.harborClient || (es != [] && Drops(s, es[0], h))
    ensures h !in After(s, es).harborClient
    decreases |es|
  {
    if es != [] {
      GoneStep(s, es[0], h);
      InvStep(s, es[0]);
      hide Inv, Apply, Enabled, Drops;
      HarborNeverReturns(Apply(s, es[0]), es[1..], h);
    }
  }

  // ---------- What the broker decides ----------

  /** A client that is not registered can do nothing but speak to the broker. */
  lemma OnlyRegisteredClientsAreHeard(p: Peer, m: MqMsg)
    ensures Decide(p, m) == Enqueue <==> p.harbor != 0 && m.topic != "Mq" && m.typ == TypeCall
    ensures Decide(p, m) == Respond <==> p.harbor != 0 && m.topic != "Mq" && m.typ == TypeRespond
    ensures p.harbor == 0 && (m.typ == TypeRespond || m.topic != "Mq") ==> Decide(p, m) == CloseSelf
  {
  }

  /** The requests to the broker itself, for a client that may make them. */
  lemma RequestsToTheBroker(p: Peer, m: MqMsg)
    requires m.topic == "Mq" && (p.harbor != 0 || m.typ == TypeCall)
    ensures m.tag != "*" ==> Decide(p, m) == CloseSelf
    ensures m.tag == "*" ==> (Decide(p, m) == StopSubscribe <==> m.class_ == "Mq" && m.method_ == "OnMqStopSubscribe")
    ensures m.tag == "*" ==> (Decide(p, m) == Close <==> m.class_ == "Mq" && m.method_ == "OnMqClose")
    ensures m.tag == "*" && m.class_ == "Mq" && m.method_ == "OnMqRegister" ==>
      Decide(p, m) ==
      if m.body.RegisterRequest? && m.body.instance != "" && m.body.harbor == 0 then Register else CloseSelf
    ensures m.tag == "*" && (m.class_ != "Mq" || m.method_ !in {"OnMqRegister", "OnMqStopSubscribe", "OnMqClose"}) ==>
      Decide(p, m) == Ignore
  {
    hide Text.Trim;
  }
}
