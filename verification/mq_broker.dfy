/**
  Calls through the message broker (skynet_go/mq): a client writes a request with its harbor id
  and a fresh sequence number; the broker queues it under topic and tag and a queue producer hands
  it to a subscriber, perhaps more than once after write errors; the subscriber executes it and
  sends a response that carries harbor and sequence number back; the broker routes the response
  by harbor; the caller looks its sequence number up among its pending calls.

  One framed message on a connection is one element of a wire. Connections may break at any
  point and lose what they still carry, and handlers return anything.
 */
module MqBroker {
  import opened Options
  import Text

  type ClientId = nat

  datatype Typ = TypeRespond | TypeCall

  datatype Body =
    | Data(bytes: string)
    | RegisterRequest(instance: string, harbor: nat, topic: string, tag: string)
    | RegisterReply(harbor: nat)
    | NilStruct

  datatype MqMsg = MqMsg(
    typ: Typ, harbor: nat, topic: string, tag: string, class_: string, method_: string, seq_: nat, body: Body)

  const ON_REGISTER := "OnMqRegister"
  const ON_STOP_SUBSCRIBE := "OnMqStopSubscribe"
  const ON_CLOSE := "OnMqClose"

  /** `ReplyMqMsg`: only harbor, sequence number and body are carried back. */
  function ReplyMqMsg(harbor: nat, pendingSeq: nat, body: Body): MqMsg {
    MqMsg(TypeRespond, harbor, "", "", "", "", pendingSeq, body)
  }

  // ---------- The client process ----------

  /** `calling` are the requests of the goroutines inside Call, `slots` the one-element channels
      of those that have been answered, and `returned` the calls that have returned. */
  datatype Node = Node(
    harbor: nat,
    pendingSeq: nat,
    calling: map<nat, MqMsg>,
    pending: set<nat>,
    slots: map<nat, MqMsg>,
    returned: map<nat, MqMsg>,
    executing: seq<MqMsg>)

  function RequestOf(n: Node, topic: string, tag: string, class_: string, method_: string, body: Body): MqMsg {
    MqMsg(TypeCall, n.harbor, topic, tag, class_, method_, n.pendingSeq + 1, body)
  }

  /** Call, up to the hand-over of the request `m` to the producer. */
  function BeginCall(n: Node, m: MqMsg): Node {
    n.(pendingSeq := m.seq_, calling := n.calling[m.seq_ := m], pending := n.pending + {m.seq_})
  }

  /** The client's `DoMqMsg`. A broker notice (topic Mq or tag *) changes no pending call; a
      response completes the pending call with its number; a request starts to execute. */
  function DoMqMsg(n: Node, m: MqMsg): Node {
    if m.topic == "Mq" || m.tag == "*" then n
    else if m.typ == TypeRespond then
      if m.seq_ in n.pending
      then n.(pending := n.pending - {m.seq_}, slots := n.slots[m.seq_ := m])
      else n
    else n.(executing := n.executing + [m])
  }

  /** Call returns with the response in its channel; the registration call stores the harbor. */
  function EndCall(n: Node, q: nat): Node
    requires q in n.slots && q in n.calling
  {
    var m := n.slots[q];
    n.(slots := n.slots - {q}, calling := n.calling - {q}, returned := n.returned[q := m],
       harbor := if IsRegistration(n.calling[q]) && m.body.RegisterReply? then m.body.harbor else n.harbor)
  }

  predicate IsRegistration(m: MqMsg) {
    m.topic == "Mq" && m.class_ == "Mq" && m.method_ == ON_REGISTER
  }

  // ---------- The broker's side of a connection ----------

  /** `outbox` is the queue of the reply producer, which holds the connection while `writing`. */
  datatype Peer = Peer(
    harbor: nat, topic: string, tag: string, start: bool, stopSubscribe: bool, outbox: seq<MqMsg>, writing: bool)

  /** What the broker does with a message that it has read. */
  datatype Decision = CloseSelf | Ignore | Register | StopSubscribe | Close | Respond | Enqueue

  /** `SHConsumer.DoMqMsg` and `Client.RegisterMqMsg`. */
  function Decide(p: Peer, m: MqMsg): Decision {
    if p.harbor == 0 && (m.typ == TypeRespond || m.topic != "Mq") then CloseSelf
    else if m.topic == "Mq" then
      if m.tag != "*" then CloseSelf
      else if m.class_ != "Mq" then Ignore
      else if m.method_ == ON_REGISTER then
        if !m.body.RegisterRequest? || m.body.instance == "" || m.body.harbor > 0 then CloseSelf else Register
      else if m.method_ == ON_STOP_SUBSCRIBE then StopSubscribe
      else if m.method_ == ON_CLOSE then Close
      else Ignore
    else if m.typ == TypeRespond then Respond
    else Enqueue
  }

  // ---------- The system ----------

  datatype Client = Client(node: Node, peer: Peer, up: seq<MqMsg>, down: seq<MqMsg>, broken: bool)

  /** The name of a queue. Topic and tag are joined, so different pairs can have the same name. */
  type Key = string

  function KeyOf(topic: string, tag: string): Key {
    topic + "_" + tag
  }

  /** Where a queue producer is: between messages or in need of a connection; past the test of the
      StopSubscribe bit of its client; past the test of the Start bit, so with a connection. No lock
      is held from the first test to the write. */
  datatype Phase = Idle | Tested | Ready

  /** A queue and its producer's `client`, which is kept from one message to the next. Clients are
      looked up for the topic and tag of the message that the queue was made for. */
  datatype Queue = Queue(topic: string, tag: string, messages: seq<MqMsg>, client: Option<ClientId>, phase: Phase)

  /** How a write ends: without error, with an error although the message arrives, with an error
      before it does. After an error the same message is written again. */
  datatype Write = Written | Unsure | Unsent

  datatype Execution = Execution(executor: ClientId, request: MqMsg, result: Body)

  /** A client was registered for a topic and a tag, both trimmed. */
  datatype Grant = Grant(client: ClientId, topic: string, tag: string)

  /** History; it only grows, and no event reads it. */
  datatype Log = Log(
    calls: map<(ClientId, nat), MqMsg>,     // every request, by caller and sequence number
    executed: set<Execution>,
    owner: map<nat, ClientId>,              // every harbor ever given out
    granted: set<Grant>)                    // every registration that was accepted

  datatype State = State(
    clients: seq<Client>,
    harborCount: nat,
    harborClient: map<nat, ClientId>,
    queues: map<Key, Queue>,
    log: Log)

  datatype Event =
    | Connect
    | CallBegins(c: ClientId, topic: string, tag: string, class_: string, method_: string, body: Body)
    | CallEnds(c: ClientId, q: nat)
    | ClientReads(c: ClientId)
    | HandlerReturns(c: ClientId, i: nat, result: Body)
    | HandlerPanics(c: ClientId, i: nat)
    | BrokerReads(c: ClientId, accepted: bool)
    | FirstReadTimesOut(c: ClientId)
    | QueueLooksUp(key: Key, d: ClientId)
    | QueueTests(key: Key)
    | QueueConnects(key: Key)
    | QueueWrites(key: Key, w: Write)
    | ReplyConnects(d: ClientId)
    | ReplyWrites(d: ClientId, w: Write)
    | ErrorReported(c: ClientId)
    | Break(c: ClientId, i: nat, j: nat)

  const NEW_CLIENT :=
    Client(Node(0, 0, map[], {}, map[], map[], []), Peer(0, "", "", true, false, [], false), [], [], false)

  const INITIAL := State([], 0, map[], map[], Log(map[], {}, map[], {}))

  /** `Client.IsSubscribe` of a registered client of `topic`. */
  predicate Subscribes(p: Peer, topic: string, tag: string) {
    p.harbor != 0 && p.topic == topic && (p.tag == "*" || tag in Text.Split(p.tag, "||"))
  }

  /** The broker's indexes have the client. */
  predicate Listed(s: State, d: ClientId) {
    && d < |s.clients| && s.clients[d].peer.harbor in s.harborClient
    && s.harborClient[s.clients[d].peer.harbor] == d
  }

  /** The queue's producer is about to write to a client. */
  predicate AtClient(s: State, key: Key) {
    && key in s.queues && s.queues[key].messages != []
    && s.queues[key].client.Some? && s.queues[key].client.value < |s.clients|
  }

  predicate Enabled(s: State, e: Event) {
    match e
    case Connect => true
    case CallBegins(c, _, _, _, _, _) => c < |s.clients|
    case CallEnds(c, q) => c < |s.clients| && q in s.clients[c].node.slots && q in s.clients[c].node.calling
    case ClientReads(c) => c < |s.clients| && s.clients[c].down != []
    case HandlerReturns(c, i, _) => c < |s.clients| && i < |s.clients[c].node.executing|
    case HandlerPanics(c, i) => c < |s.clients| && i < |s.clients[c].node.executing|
    case BrokerReads(c, _) => c < |s.clients| && s.clients[c].up != []
    case FirstReadTimesOut(c) => c < |s.clients| && s.clients[c].peer.harbor == 0
    case QueueLooksUp(key, d) =>
      && key in s.queues && s.queues[key].messages != [] && s.queues[key].client.None?
      && Listed(s, d) && Subscribes(s.clients[d].peer, s.queues[key].topic, s.queues[key].tag)
    case QueueTests(key) =>
      && key in s.queues && s.queues[key].messages != [] && s.queues[key].phase.Idle?
      && s.queues[key].client.Some? && s.queues[key].client.value < |s.clients|
    case QueueConnects(key) => AtClient(s, key) && s.queues[key].phase.Tested?
    case QueueWrites(key, _) => AtClient(s, key) && s.queues[key].phase.Ready?
    case ReplyConnects(d) =>
      d < |s.clients| && s.clients[d].peer.outbox != [] && !s.clients[d].peer.writing && s.clients[d].peer.start
    case ReplyWrites(d, _) => d < |s.clients| && s.clients[d].peer.outbox != [] && s.clients[d].peer.writing
    case ErrorReported(c) => c < |s.clients|
    case Break(c, i, j) => c < |s.clients| && i <= |s.clients[c].up| && j <= |s.clients[c].down|
  }

  function Put(s: State, c: ClientId, x: Client): State
    requires c < |s.clients|
  {
    s.(clients := s.clients[c := x])
  }

  /** A write on a connection: nothing more arrives once it is broken. */
  function Sent(wire: seq<MqMsg>, broken: bool, m: MqMsg): seq<MqMsg> {
    if broken then wire else wire + [m]
  }

  function Without(ms: seq<MqMsg>, i: nat): seq<MqMsg>
    requires i < |ms|
  {
    ms[..i] + ms[i + 1..]
  }

  function ReplyTo(x: Client, m: MqMsg, body: Body): Client {
    x.(peer := x.peer.(outbox := x.peer.outbox + [ReplyMqMsg(x.peer.harbor, m.seq_, body)]))
  }

  function Enqueued(s: State, key: Key, m: MqMsg): Queue {
    var q := if key in s.queues then s.queues[key] else Queue(m.topic, m.tag, [], None, Idle);
    q.(messages := q.messages + [m])
  }

  /** The broker handles message `m` of client `c`, whose record without `m` is `x`. */
  function Handle(s: State, c: ClientId, x: Client, m: MqMsg, accepted: bool): State
    requires c < |s.clients|
  {
    match Decide(x.peer, m)
    case Ignore => Put(s, c, x)
    case CloseSelf => Put(s, c, x).(harborClient := s.harborClient - {x.peer.harbor})
    case Register =>
      var h := s.harborCount + 1;
      var topic, tag := Text.Trim(m.body.topic, Text.BLANKS), Text.Trim(m.body.tag, Text.BLANKS);
      var y := x.(peer := Peer(h, topic, tag, accepted, false, x.peer.outbox, x.peer.writing));
      Put(s, c, if accepted then ReplyTo(y, m, RegisterReply(h)) else y)
        .(harborCount := h,
          harborClient := if accepted then s.harborClient[h := c] else s.harborClient - {h},
          log := s.log.(owner := s.log.owner[h := c],
                        granted := if accepted then s.log.granted + {Grant(c, topic, tag)} else s.log.granted))
    case StopSubscribe => Put(s, c, ReplyTo(x.(peer := x.peer.(stopSubscribe := true)), m, NilStruct))
    case Close => Put(s, c, ReplyTo(x, m, NilStruct)).(harborClient := s.harborClient - {x.peer.harbor})
    case Respond =>
      var t := Put(s, c, x);
      if m.harbor in s.harborClient && s.harborClient[m.harbor] < |s.clients| then
        var d := s.harborClient[m.harbor];
        var y := t.clients[d];
        Put(t, d, y.(peer := y.peer.(outbox := y.peer.outbox + [m])))
      else t
    case Enqueue =>
      var key := KeyOf(m.topic, m.tag);
      Put(s, c, x).(queues := s.queues[key := Enqueued(s, key, m)])
  }

  function SetQueue(s: State, key: Key, q: Queue): State {
    s.(queues := s.queues[key := q])
  }

  /** `SQProducer.GetConn`, the StopSubscribe bit. */
  function QueueTested(s: State, q: Queue): Queue
    requires q.client.Some? && q.client.value < |s.clients|
  {
    if s.clients[q.client.value].peer.stopSubscribe then q.(client := None) else q.(phase := Tested)
  }

  /** `SQProducer.GetConn`, the Start bit. */
  function QueueConnected(s: State, q: Queue): Queue
    requires q.client.Some? && q.client.value < |s.clients|
  {
    q.(phase := if s.clients[q.client.value].peer.start then Ready else Idle)
  }

  /** After the write; an error makes the producer give its client up (`SQProducer.Error`). */
  function QueueWritten(q: Queue, w: Write): Queue
    requires q.messages != []
  {
    if w.Written? then q.(messages := q.messages[1..], phase := Idle) else q.(client := None, phase := Idle)
  }

  function Arrived(x: Client, w: Write, m: MqMsg): Client {
    if w.Unsent? then x else x.(down := Sent(x.down, x.broken, m))
  }

  function ReplyWritten(x: Client, w: Write): Client
    requires x.peer.outbox != []
  {
    var out := x.peer.outbox;
    Arrived(x, w, out[0]).(peer := x.peer.(writing := false, outbox := if w.Written? then out[1..] else out))
  }

  function Apply(s: State, e: Event): State
    requires Enabled(s, e)
  {
    match e
    case Connect => s.(clients := s.clients + [NEW_CLIENT])
    case CallBegins(c, topic, tag, class_, method_, body) =>
      var x := s.clients[c];
      var m := RequestOf(x.node, topic, tag, class_, method_, body);
      Put(s, c, x.(node := BeginCall(x.node, m), up := Sent(x.up, x.broken, m)))
        .(log := s.log.(calls := s.log.calls[(c, m.seq_) := m]))
    case CallEnds(c, q) =>
      var x := s.clients[c];
      Put(s, c, x.(node := EndCall(x.node, q)))
    case ClientReads(c) =>
      var x := s.clients[c];
      Put(s, c, x.(node := DoMqMsg(x.node, x.down[0]), down := x.down[1..]))
    case HandlerReturns(c, i, result) =>
      var x := s.clients[c];
      var r := x.node.executing[i];
      Put(s, c, x.(node := x.node.(executing := Without(x.node.executing, i)),
                   up := Sent(x.up, x.broken, ReplyMqMsg(r.harbor, r.seq_, result))))
        .(log := s.log.(executed := s.log.executed + {Execution(c, r, result)}))
    case HandlerPanics(c, i) =>
      var x := s.clients[c];
      Put(s, c, x.(node := x.node.(executing := Without(x.node.executing, i))))
    case BrokerReads(c, accepted) =>
      var x := s.clients[c];
      Handle(s, c, x.(up := x.up[1..]), x.up[0], accepted)
    case FirstReadTimesOut(c) => s.(harborClient := s.harborClient - {0})
    case QueueLooksUp(key, d) => SetQueue(s, key, s.queues[key].(client := Some(d)))
    case QueueTests(key) => SetQueue(s, key, QueueTested(s, s.queues[key]))
    case QueueConnects(key) => SetQueue(s, key, QueueConnected(s, s.queues[key]))
    case QueueWrites(key, w) =>
      var q := s.queues[key];
      var d := q.client.value;
      Put(SetQueue(s, key, QueueWritten(q, w)), d, Arrived(s.clients[d], w, q.messages[0]))
    case ReplyConnects(d) =>
      var x := s.clients[d];
      Put(s, d, x.(peer := x.peer.(writing := true)))
    case ReplyWrites(d, w) => Put(s, d, ReplyWritten(s.clients[d], w))
    case ErrorReported(c) =>
      var x := s.clients[c];
      Put(s, c, x.(peer := x.peer.(start := false))).(harborClient := s.harborClient - {x.peer.harbor})
    case Break(c, i, j) =>
      var x := s.clients[c];
      Put(s, c, x.(up := x.up[..i], down := x.down[..j], broken := true))
  }

  predicate IsRun(s: State, es: seq<Event>)
    decreases |es|
  {
    es == [] || (Enabled(s, es[0]) && IsRun(Apply(s, es[0]), es[1..]))
  }

  function After(s: State, es: seq<Event>): State
    requires IsRun(s, es)
    decreases |es|
  {
    if es == [] then s else After(Apply(s, es[0]), es[1..])
  }

  ghost predicate Reachable(s: State) {
    exists es :: IsRun(INITIAL, es) && After(INITIAL, es) == s
  }

  // ---------- What every message satisfies ----------

  ghost predicate Extends(l: Log, k: Log) {
    && (forall a :: a in l.calls ==> a in k.calls && k.calls[a] == l.calls[a])
    && l.executed <= k.executed
    && (forall h :: h in l.owner ==> h in k.owner && k.owner[h] == l.owner[h])
    && l.granted <= k.granted
  }

  /** The harbor was given out to client `c`. */
  predicate Owns(l: Log, c: ClientId, harbor: nat) {
    harbor in l.owner && l.owner[harbor] == c
  }

  /** `m` is the request that client `c` made under the number in `m`. */
  predicate CalledBy(l: Log, c: ClientId, m: MqMsg) {
    m.typ == TypeCall && (c, m.seq_) in l.calls && l.calls[(c, m.seq_)] == m
  }

  /** A request anywhere behind the broker: its harbor, unless 0, leads back to its caller. */
  predicate RequestOk(l: Log, m: MqMsg) {
    m.typ == TypeCall && m.topic != "Mq"
    && (m.harbor != 0 ==> m.harbor in l.owner && CalledBy(l, l.owner[m.harbor], m))
  }

  ghost predicate ExecutedFor(l: Log, request: MqMsg, result: Body) {
    exists d :: Execution(d, request, result) in l.executed
  }

  /** A response on its way to the broker is the result of executing the request it names. */
  ghost predicate ResponseOk(l: Log, m: MqMsg) {
    m.typ == TypeRespond && m.topic == "" && m.tag == ""
    && (m.harbor != 0 ==>
          && m.harbor in l.owner && (l.owner[m.harbor], m.seq_) in l.calls
          && var r := l.calls[(l.owner[m.harbor], m.seq_)];
          && r.topic != "Mq" && ExecutedFor(l, r, m.body))
  }

  /** `body` answers request `q` of client `c`: it is the result of an execution of that very
      request, or, for requests to the broker itself, the broker's reply. */
  ghost predicate Answers(l: Log, c: ClientId, q: nat, body: Body) {
    && (c, q) in l.calls
    && var r := l.calls[(c, q)];
    && (r.topic != "Mq" ==> ExecutedFor(l, r, body))
    && (r.topic == "Mq" ==>
          || body == NilStruct
          || (body.RegisterReply? && IsRegistration(r) && body.harbor in l.owner && l.owner[body.harbor] == c))
  }

  ghost predicate UpOk(l: Log, c: ClientId, m: MqMsg) {
    if m.typ == TypeRespond then ResponseOk(l, m)
    else CalledBy(l, c, m) && (m.harbor != 0 ==> m.harbor in l.owner && l.owner[m.harbor] == c)
  }

  ghost predicate DownOk(l: Log, c: ClientId, m: MqMsg) {
    if m.typ == TypeRespond then m.topic == "" && m.tag == "" && Answers(l, c, m.seq_, m.body)
    else RequestOk(l, m)
  }

  /** The call numbers of a client: a call is pending or answered only while its goroutine is in
      Call, and not in two of these stages at once. */
  ghost predicate NumbersOk(l: Log, c: ClientId, n: Node) {
    && (n.harbor != 0 ==> n.harbor in l.owner && l.owner[n.harbor] == c)
    && (forall q: nat :: (c, q) in l.calls ==> 1 <= q <= n.pendingSeq)
    && (forall q :: q in n.calling ==> (c, q) in l.calls && l.calls[(c, q)] == n.calling[q])
    && n.pending + n.slots.Keys <= n.calling.Keys
    && n.pending !! n.slots.Keys && n.calling.Keys !! n.returned.Keys
    && (forall q :: q in n.returned ==> (c, q) in l.calls)
  }

  ghost predicate ContentsOk(l: Log, c: ClientId, n: Node) {
    && (forall q :: q in n.slots ==> Answers(l, c, q, n.slots[q].body))
    && (forall q :: q in n.returned ==> Answers(l, c, q, n.returned[q].body))
    && (forall m :: m in n.executing ==> RequestOk(l, m))
  }

  ghost predicate NodeOk(l: Log, c: ClientId, n: Node) {
    NumbersOk(l, c, n) && ContentsOk(l, c, n)
  }

  ghost predicate ClientOk(l: Log, c: ClientId, x: Client) {
    && NodeOk(l, c, x.node)
    && (x.peer.harbor != 0 ==> x.peer.harbor in l.owner && l.owner[x.peer.harbor] == c)
    && (x.peer.writing ==> x.peer.outbox != [])
    && (forall m :: m in x.up ==> UpOk(l, c, m))
    && (forall m :: m in x.down ==> DownOk(l, c, m))
    && (forall m :: m in x.peer.outbox ==> m.typ == TypeRespond && DownOk(l, c, m))
  }

  ghost predicate QueueOk(l: Log, clients: nat, q: Queue) {
    && (forall m :: m in q.messages ==> RequestOk(l, m))
    && (q.client.Some? ==> q.client.value < clients)
    && (q.phase != Idle ==> q.client.Some? && q.messages != [])
  }

  ghost predicate BrokerOk(s: State) {
    && (forall h :: h in s.log.owner ==> 1 <= h <= s.harborCount && s.log.owner[h] < |s.clients|)
    && (forall h :: h in s.harborClient ==> h in s.log.owner && s.log.owner[h] == s.harborClient[h])
    && (forall key :: key in s.queues ==> QueueOk(s.log, |s.clients|, s.queues[key]))
    && (forall c, q: nat :: (c, q) in s.log.calls ==> c < |s.clients|)
  }

  ghost predicate Inv(s: State) {
    BrokerOk(s) && forall c: ClientId :: c < |s.clients| ==> ClientOk(s.log, c, s.clients[c])
  }

  // ---------- Growth of the log ----------

  lemma AnswersGrow(l: Log, k: Log, c: ClientId, q: nat, body: Body)
    requires Extends(l, k) && Answers(l, c, q, body)
    ensures Answers(k, c, q, body)
  {
    var r := l.calls[(c, q)];
    if r.topic != "Mq" {
      var d :| Execution(d, r, body) in l.executed;
      assert Execution(d, r, body) in k.executed;
    }
  }

  lemma RequestGrows(l: Log, k: Log, m: MqMsg)
    requires Extends(l, k) && RequestOk(l, m)
    ensures RequestOk(k, m)
  {
  }

  lemma DownGrows(l: Log, k: Log, c: ClientId, m: MqMsg)
    requires Extends(l, k) && DownOk(l, c, m)
    ensures DownOk(k, c, m)
  {
    if m.typ == TypeRespond {
      AnswersGrow(l, k, c, m.seq_, m.body);
    }
  }

  lemma UpGrows(l: Log, k: Log, c: ClientId, m: MqMsg)
    requires Extends(l, k) && UpOk(l, c, m)
    ensures UpOk(k, c, m)
  {
    if m.typ == TypeRespond && m.harbor != 0 {
      var r := l.calls[(l.owner[m.harbor], m.seq_)];
      var d :| Execution(d, r, m.body) in l.executed;
      assert Execution(d, r, m.body) in k.executed;
    }
  }

  ghost predicate NoNewCalls(l: Log, k: Log, c: ClientId) {
    forall q: nat :: (c, q) in k.calls ==> (c, q) in l.calls
  }

  lemma ContentsGrow(l: Log, k: Log, c: ClientId, n: Node)
    requires Extends(l, k) && ContentsOk(l, c, n)
    ensures ContentsOk(k, c, n)
  {
    forall q | q in n.slots ensures Answers(k, c, q, n.slots[q].body) {
      AnswersGrow(l, k, c, q, n.slots[q].body);
    }
    forall q | q in n.returned ensures Answers(k, c, q, n.returned[q].body) {
      AnswersGrow(l, k, c, q, n.returned[q].body);
    }
    forall m | m in n.executing ensures RequestOk(k, m) {
      RequestGrows(l, k, m);
    }
  }

  lemma QueuesGrow(l: Log, k: Log, n: nat, m: nat, queues: map<Key, Queue>)
    requires Extends(l, k) && n <= m
    requires forall key :: key in queues ==> QueueOk(l, n, queues[key])
    ensures forall key :: key in queues ==> QueueOk(k, m, queues[key])
  {
    forall key | key in queues
      ensures QueueOk(k, m, queues[key])
    {
      assert QueueOk(l, n, queues[key]);
      forall r | r in queues[key].messages
        ensures RequestOk(k, r)
      {
        RequestGrows(l, k, r);
      }
    }
  }

  lemma ClientGrows(l: Log, k: Log, c: ClientId, x: Client)
    requires Extends(l, k) && NoNewCalls(l, k, c) && ClientOk(l, c, x)
    ensures ClientOk(k, c, x)
  {
    ContentsGrow(l, k, c, x.node);
    WiresGrow(l, k, c, x);
    hide ContentsOk, UpOk, DownOk;
  }

  lemma WiresGrow(l: Log, k: Log, c: ClientId, x: Client)
    requires Extends(l, k) && ClientOk(l, c, x)
    ensures forall m :: m in x.up ==> UpOk(k, c, m)
    ensures forall m :: m in x.down ==> DownOk(k, c, m)
    ensures forall m :: m in x.peer.outbox ==> DownOk(k, c, m)
  {
    forall m | m in x.up ensures UpOk(k, c, m) { UpGrows(l, k, c, m); }
    forall m | m in x.down ensures DownOk(k, c, m) { DownGrows(l, k, c, m); }
    forall m | m in x.peer.outbox ensures DownOk(k, c, m) { DownGrows(l, k, c, m); }
  }

  /** Only client `c` changed, and the log grew by calls of `c` at most. */
  ghost predicate Touches(s: State, t: State, c: ClientId) {
    && c < |s.clients| == |t.clients|
    && (forall d: ClientId :: d < |s.clients| && d != c ==> t.clients[d] == s.clients[d])
    && Extends(s.log, t.log)
    && (forall d, q: nat :: (d, q) in t.log.calls && d != c ==> (d, q) in s.log.calls)
  }

  lemma Restore(s: State, t: State, c: ClientId)
    requires Inv(s) && Touches(s, t, c) && BrokerOk(t) && ClientOk(t.log, c, t.clients[c])
    ensures Inv(t)
  {
    forall d: ClientId | d < |t.clients| ensures ClientOk(t.log, d, t.clients[d]) {
      if d != c {
        assert ClientOk(s.log, d, s.clients[d]);
        ClientGrows(s.log, t.log, d, s.clients[d]);
      }
    }
  }

  // ---------- Every event keeps the invariant ----------

  lemma NodeBegins(l: Log, c: ClientId, n: Node, m: MqMsg)
    requires NodeOk(l, c, n) && m.seq_ == n.pendingSeq + 1
    ensures var k := l.(calls := l.calls[(c, m.seq_) := m]);
      Extends(l, k) && NodeOk(k, c, BeginCall(n, m))
  {
    var k := l.(calls := l.calls[(c, m.seq_) := m]);
    assert (c, m.seq_) !in l.calls;
    ContentsGrow(l, k, c, n);
    hide Answers, RequestOk;
  }

  lemma CallBeginsStep(s: State, e: Event)
    requires Inv(s) && Enabled(s, e) && e.CallBegins?
    ensures Inv(Apply(s, e))
  {
    var t := Apply(s, e);
    var x := s.clients[e.c];
    var m := RequestOf(x.node, e.topic, e.tag, e.class_, e.method_, e.body);
    assert ClientOk(s.log, e.c, x);
    NodeBegins(s.log, e.c, x.node, m);
    WiresGrow(s.log, t.log, e.c, x);
    assert UpOk(t.log, e.c, m);
    QueuesGrow(s.log, t.log, |s.clients|, |t.clients|, s.queues);
    hide NodeOk, UpOk, DownOk, Extends, BrokerOk, RequestOk;
    assert ClientOk(t.log, e.c, t.clients[e.c]);
    Restore(s, t, e.c);
  }

  lemma NodeEnds(l: Log, c: ClientId, n: Node, q: nat)
    requires NodeOk(l, c, n) && q in n.slots && q in n.calling
    ensures NodeOk(l, c, EndCall(n, q))
  {
    assert Answers(l, c, q, n.slots[q].body);
    assert NumbersOk(l, c, EndCall(n, q));
    hide Answers, RequestOk;
  }

  lemma NodeReads(l: Log, c: ClientId, n: Node, m: MqMsg)
    requires NodeOk(l, c, n) && DownOk(l, c, m)
    ensures NodeOk(l, c, DoMqMsg(n, m))
  {
    hide Answers, RequestOk;
  }

  /** The common shape of the events that change one client and leave the log alone. */
  lemma Local(s: State, t: State, c: ClientId)
    requires Inv(s) && c < |s.clients| == |t.clients| && t.clients == s.clients[c := t.clients[c]]
    requires t.log == s.log && t.queues == s.queues && t.harborCount == s.harborCount
    requires forall h :: h in t.harborClient ==> h in s.harborClient && t.harborClient[h] == s.harborClient[h]
    requires ClientOk(s.log, c, t.clients[c])
    ensures Inv(t)
  {
    assert Touches(s, t, c);
    hide ClientOk;
    Restore(s, t, c);
  }

  lemma NodeOf(l: Log, c: ClientId, x: Client)
    requires ClientOk(l, c, x)
    ensures NodeOk(l, c, x.node)
  {
  }

  lemma ClientNode(l: Log, c: ClientId, x: Client, n: Node)
    requires ClientOk(l, c, x) && NodeOk(l, c, n)
    ensures ClientOk(l, c, x.(node := n))
  {
    hide NodeOk, UpOk, DownOk;
  }

  lemma CallEndsStep(s: State, e: Event)
    requires Inv(s) && Enabled(s, e) && e.CallEnds?
    ensures Inv(Apply(s, e))
  {
    var x := s.clients[e.c];
    assert ClientOk(s.log, e.c, x);
    hide ClientOk;
    NodeOf(s.log, e.c, x);
    NodeEnds(s.log, e.c, x.node, e.q);
    hide NodeOk, EndCall;
    ClientNode(s.log, e.c, x, EndCall(x.node, e.q));
    Local(s, Apply(s, e), e.c);
  }

  lemma ClientReadsStep(s: State, e: Event)
    requires Inv(s) && Enabled(s, e) && e.ClientReads?
    ensures Inv(Apply(s, e))
  {
    var x := s.clients[e.c];
    assert ClientOk(s.log, e.c, x) && x.down[0] in x.down;
    NodeReads(s.log, e.c, x.node, x.down[0]);
    hide NodeOk, UpOk, DownOk, DoMqMsg;
    assert forall m :: m in x.down[1..] ==> m in x.down;
    Local(s, Apply(s, e), e.c);
  }

  lemma NodeForgets(l: Log, c: ClientId, n: Node, i: nat)
    requires NodeOk(l, c, n) && i < |n.executing|
    ensures NodeOk(l, c, n.(executing := Without(n.executing, i)))
    ensures RequestOk(l, n.executing[i])
  {
    assert forall m :: m in Without(n.executing, i) ==> m in n.executing;
    assert n.executing[i] in n.executing;
    hide Answers, RequestOk;
  }

  lemma HandlerPanicsStep(s: State, e: Event)
    requires Inv(s) && Enabled(s, e) && e.HandlerPanics?
    ensures Inv(Apply(s, e))
  {
    var x := s.clients[e.c];
    assert ClientOk(s.log, e.c, x);
    hide ClientOk;
    NodeOf(s.log, e.c, x);
    NodeForgets(s.log, e.c, x.node, e.i);
    hide NodeOk;
    ClientNode(s.log, e.c, x, x.node.(executing := Without(x.node.executing, e.i)));
    Local(s, Apply(s, e), e.c);
  }

  lemma HandlerReturnsStep(s: State, e: Event)
    requires Inv(s) && Enabled(s, e) && e.HandlerReturns?
    ensures Inv(Apply(s, e))
  {
    var t := Apply(s, e);
    var x, y := s.clients[e.c], t.clients[e.c];
    var r := x.node.executing[e.i];
    assert ClientOk(s.log, e.c, x);
    NodeForgets(s.log, e.c, x.node, e.i);
    assert Execution(e.c, r, e.result) in t.log.executed;
    assert ResponseOk(t.log, ReplyMqMsg(r.harbor, r.seq_, e.result));
    assert Extends(s.log, t.log);
    ContentsGrow(s.log, t.log, e.c, y.node);
    assert NumbersOk(t.log, e.c, y.node);
    WiresGrow(s.log, t.log, e.c, x);
    QueuesGrow(s.log, t.log, |s.clients|, |t.clients|, s.queues);
    hide NodeOk, UpOk, DownOk, RequestOk, Extends;
    ResponseGoesUp(t.log, e.c, ReplyMqMsg(r.harbor, r.seq_, e.result));
    assert NodeOk(t.log, e.c, y.node) by { NodeFromParts(t.log, e.c, y.node); }
    assert ClientOk(t.log, e.c, y);
    Restore(s, t, e.c);
  }

  lemma ResponseGoesUp(l: Log, c: ClientId, m: MqMsg)
    requires ResponseOk(l, m)
    ensures UpOk(l, c, m)
  {
  }

  lemma NodeFromParts(l: Log, c: ClientId, n: Node)
    requires NumbersOk(l, c, n) && ContentsOk(l, c, n)
    ensures NodeOk(l, c, n)
  {
  }

  lemma QueueReplaced(s: State, key: Key, q: Queue)
    requires Inv(s) && QueueOk(s.log, |s.clients|, q)
    ensures Inv(SetQueue(s, key, q))
  {
    hide ClientOk, QueueOk;
  }

  lemma QueueEventsStep(s: State, e: Event)
    requires Inv(s) && Enabled(s, e) && (e.QueueLooksUp? || e.QueueTests? || e.QueueConnects?)
    ensures Inv(Apply(s, e))
  {
    hide ClientOk, RequestOk, Subscribes;
    assert QueueOk(s.log, |s.clients|, s.queues[e.key]);
    var q := Apply(s, e).queues[e.key];
    assert QueueOk(s.log, |s.clients|, q) && Apply(s, e) == SetQueue(s, e.key, q);
    QueueReplaced(s, e.key, q);
  }

  lemma QueueWritesStep(s: State, e: Event)
    requires Inv(s) && Enabled(s, e) && e.QueueWrites?
    ensures Inv(Apply(s, e))
  {
    var q := s.queues[e.key];
    var d := q.client.value;
    var m := q.messages[0];
    hide ClientOk, RequestOk, DownOk;
    assert QueueOk(s.log, |s.clients|, q) && m in q.messages;
    assert forall r :: r in q.messages[1..] ==> r in q.messages;
    QueueReplaced(s, e.key, QueueWritten(q, e.w));
    ArrivedOk(s.log, d, s.clients[d], e.w, m);
    Local(SetQueue(s, e.key, QueueWritten(q, e.w)), Apply(s, e), d);
  }

  lemma ArrivedOk(l: Log, d: ClientId, x: Client, w: Write, m: MqMsg)
    requires ClientOk(l, d, x) && (RequestOk(l, m) || DownOk(l, d, m))
    ensures ClientOk(l, d, Arrived(x, w, m))
  {
    hide NodeOk, UpOk;
    if RequestOk(l, m) {
      RequestGoesDown(l, d, m);
    }
    hide DownOk;
  }

  lemma RequestGoesDown(l: Log, c: ClientId, m: MqMsg)
    requires RequestOk(l, m)
    ensures DownOk(l, c, m)
  {
  }

  lemma ReplyConnectsStep(s: State, e: Event)
    requires Inv(s) && Enabled(s, e) && e.ReplyConnects?
    ensures Inv(Apply(s, e))
  {
    assert ClientOk(s.log, e.d, s.clients[e.d]);
    hide NodeOk, UpOk, DownOk;
    Local(s, Apply(s, e), e.d);
  }

  lemma ReplyWritesStep(s: State, e: Event)
    requires Inv(s) && Enabled(s, e) && e.ReplyWrites?
    ensures Inv(Apply(s, e))
  {
    var x := s.clients[e.d];
    assert ClientOk(s.log, e.d, x);
    hide ClientOk;
    ReplyWrittenOk(s.log, e.d, x, e.w);
    hide ReplyWritten;
    Local(s, Apply(s, e), e.d);
  }

  lemma ReplyWrittenOk(l: Log, d: ClientId, x: Client, w: Write)
    requires ClientOk(l, d, x) && x.peer.outbox != []
    ensures ClientOk(l, d, ReplyWritten(x, w))
  {
    hide NodeOk, UpOk, DownOk;
    var out := x.peer.outbox;
    assert out[0] in out && forall m :: m in out[1..] ==> m in out;
    ArrivedOk(l, d, x, w, out[0]);
  }

  lemma ErrorReportedStep(s: State, e: Event)
    requires Inv(s) && Enabled(s, e) && e.ErrorReported?
    ensures Inv(Apply(s, e))
  {
    assert ClientOk(s.log, e.c, s.clients[e.c]);
    hide NodeOk, UpOk, DownOk;
    Local(s, Apply(s, e), e.c);
  }

  lemma BreakStep(s: State, e: Event)
    requires Inv(s) && Enabled(s, e) && e.Break?
    ensures Inv(Apply(s, e))
  {
    var x := s.clients[e.c];
    assert ClientOk(s.log, e.c, x);
    assert forall m :: m in x.up[..e.i] ==> m in x.up;
    assert forall m :: m in x.down[..e.j] ==> m in x.down;
    hide NodeOk, UpOk, DownOk;
    Local(s, Apply(s, e), e.c);
  }

  lemma ConnectStep(s: State)
    requires Inv(s)
    ensures Inv(Apply(s, Connect))
  {
    var t := Apply(s, Connect);
    forall d: ClientId | d < |t.clients| ensures ClientOk(t.log, d, t.clients[d]) {
      if d < |s.clients| {
        assert t.clients[d] == s.clients[d];
      } else {
        assert ClientOk(t.log, d, NEW_CLIENT);
      }
    }
  }

  // ---------- The broker handles a message ----------

  lemma Popped(l: Log, c: ClientId, x: Client)
    requires ClientOk(l, c, x) && x.up != []
    ensures ClientOk(l, c, x.(up := x.up[1..])) && UpOk(l, c, x.up[0])
  {
    assert x.up[0] in x.up && forall m :: m in x.up[1..] ==> m in x.up;
    hide NodeOk, UpOk, DownOk;
  }

  /** The broker's own reply to a request that it read from client `c`. */
  lemma OwnReply(l: Log, c: ClientId, x: Client, m: MqMsg, body: Body)
    requires ClientOk(l, c, x) && CalledBy(l, c, m) && m.topic == "Mq"
    requires body == NilStruct || (body.RegisterReply? && IsRegistration(m) && Owns(l, c, body.harbor))
    ensures ClientOk(l, c, ReplyTo(x, m, body))
  {
    var r := ReplyMqMsg(x.peer.harbor, m.seq_, body);
    assert Answers(l, c, m.seq_, body);
    assert DownOk(l, c, r);
    hide NodeOk, UpOk, DownOk;
  }

  /** The client's record after a registration, with the new harbor `h` in the log `k`. */
  function Registered(x: Client, m: MqMsg, h: nat, accepted: bool): Client
    requires m.body.RegisterRequest?
  {
    var topic, tag := Text.Trim(m.body.topic, Text.BLANKS), Text.Trim(m.body.tag, Text.BLANKS);
    var y := x.(peer := Peer(h, topic, tag, accepted, false, x.peer.outbox, x.peer.writing));
    if accepted then ReplyTo(y, m, RegisterReply(h)) else y
  }

  lemma RegisteredOk(k: Log, c: ClientId, x: Client, m: MqMsg, h: nat, accepted: bool)
    requires ClientOk(k, c, x) && CalledBy(k, c, m) && IsRegistration(m) && m.body.RegisterRequest?
    requires h in k.owner && k.owner[h] == c
    ensures ClientOk(k, c, Registered(x, m, h, accepted))
  {
    hide NodeOk, UpOk, DownOk, Text.Trim;
    var y := Registered(x, m, h, false);
    assert ClientOk(k, c, y);
    if accepted {
      OwnReply(k, c, y, m, RegisterReply(h));
    }
  }

  lemma RegisterStep(s: State, c: ClientId, x: Client, m: MqMsg, accepted: bool)
    requires Inv(s) && c < |s.clients| && ClientOk(s.log, c, x) && UpOk(s.log, c, m)
    requires Decide(x.peer, m) == Register
    ensures Inv(Handle(s, c, x, m, accepted))
  {
    hide Text.Trim;
    var t := Handle(s, c, x, m, accepted);
    var h := s.harborCount + 1;
    assert h !in s.log.owner && Extends(s.log, t.log);
    RequestsAreCalls(s.log, c, x.peer, m);
    hide NodeOk, UpOk, DownOk, RequestOk;
    ClientGrows(s.log, t.log, c, x);
    hide ClientOk;
    RegisteredOk(t.log, c, x, m, h, accepted);
    QueuesGrow(s.log, t.log, |s.clients|, |t.clients|, s.queues);
    hide QueueOk;
    assert t.clients[c] == Registered(x, m, h, accepted);
    Restore(s, t, c);
  }

  lemma RequestsAreCalls(l: Log, c: ClientId, p: Peer, m: MqMsg)
    requires UpOk(l, c, m) && !Decide(p, m).CloseSelf? && !Decide(p, m).Respond?
    ensures CalledBy(l, c, m)
  {
  }

  lemma RespondStep(s: State, c: ClientId, x: Client, m: MqMsg)
    requires Inv(s) && c < |s.clients| && ClientOk(s.log, c, x) && UpOk(s.log, c, m)
    requires Decide(x.peer, m) == Respond
    ensures Inv(Handle(s, c, x, m, false))
  {
    var t := Put(s, c, x);
    assert Inv(t) by {
      hide ClientOk, UpOk;
      Local(s, t, c);
    }
    if m.harbor in s.harborClient && s.harborClient[m.harbor] < |s.clients| {
      var d := s.harborClient[m.harbor];
      var y := t.clients[d];
      assert ClientOk(t.log, d, y);
      assert m.harbor != 0 && DownOk(t.log, d, m);
      hide NodeOk, UpOk, DownOk;
      var u := Put(t, d, y.(peer := y.peer.(outbox := y.peer.outbox + [m])));
      Local(t, u, d);
    }
  }

  lemma EnqueueStep(s: State, c: ClientId, x: Client, m: MqMsg)
    requires Inv(s) && c < |s.clients| && ClientOk(s.log, c, x) && UpOk(s.log, c, m)
    requires Decide(x.peer, m) == Enqueue
    ensures Inv(Handle(s, c, x, m, false))
  {
    var key := KeyOf(m.topic, m.tag);
    assert RequestOk(s.log, m);
    hide ClientOk, UpOk, RequestOk;
    assert key in s.queues ==> QueueOk(s.log, |s.clients|, s.queues[key]);
    Local(s, Put(s, c, x), c);
    QueueReplaced(Put(s, c, x), key, Enqueued(s, key, m));
  }

  lemma BrokerReadsStep(s: State, e: Event)
    requires Inv(s) && Enabled(s, e) && e.BrokerReads?
    ensures Inv(Apply(s, e))
  {
    var c, x, m := e.c, s.clients[e.c].(up := s.clients[e.c].up[1..]), s.clients[e.c].up[0];
    Popped(s.log, c, s.clients[c]);
    hide ClientOk, UpOk;
    match Decide(x.peer, m)
    case Ignore => Local(s, Apply(s, e), c);
    case CloseSelf => Local(s, Apply(s, e), c);
    case Register => RegisterStep(s, c, x, m, e.accepted);
    case Respond => RespondStep(s, c, x, m);
    case Enqueue => EnqueueStep(s, c, x, m);
    case StopSubscribe =>
      RequestsAreCalls(s.log, c, x.peer, m);
      var y := x.(peer := x.peer.(stopSubscribe := true));
      assert ClientOk(s.log, c, y) by { StopKeepsOk(s.log, c, x); }
      OwnReply(s.log, c, y, m, NilStruct);
      Local(s, Apply(s, e), c);
    case Close =>
      RequestsAreCalls(s.log, c, x.peer, m);
      OwnReply(s.log, c, x, m, NilStruct);
      Local(s, Apply(s, e), c);
  }

  lemma StopKeepsOk(l: Log, c: ClientId, x: Client)
    requires ClientOk(l, c, x)
    ensures ClientOk(l, c, x.(peer := x.peer.(stopSubscribe := true)))
  {
    hide NodeOk, UpOk, DownOk;
  }

  lemma InvStep(s: State, e: Event)
    requires Inv(s) && Enabled(s, e)
    ensures Inv(Apply(s, e))
  {
    match e
    case Connect => ConnectStep(s);
    case CallBegins(_, _, _, _, _, _) => CallBeginsStep(s, e);
    case CallEnds(_, _) => CallEndsStep(s, e);
    case ClientReads(_) => ClientReadsStep(s, e);
    case HandlerReturns(_, _, _) => HandlerReturnsStep(s, e);
    case HandlerPanics(_, _) => HandlerPanicsStep(s, e);
    case BrokerReads(_, _) => BrokerReadsStep(s, e);
    case FirstReadTimesOut(_) =>
    case QueueLooksUp(_, _) => QueueEventsStep(s, e);
    case QueueTests(_) => QueueEventsStep(s, e);
    case QueueConnects(_) => QueueEventsStep(s, e);
    case QueueWrites(_, _) => QueueWritesStep(s, e);
    case ReplyConnects(_) => ReplyConnectsStep(s, e);
    case ReplyWrites(_, _) => ReplyWritesStep(s, e);
    case ErrorReported(_) => ErrorReportedStep(s, e);
    case Break(_, _, _) => BreakStep(s, e);
  }

  lemma {:induction false} InvRun(s: State, es: seq<Event>)
    requires Inv(s) && IsRun(s, es)
    ensures Inv(After(s, es))
    decreases |es|
  {
    if es != [] {
      InvStep(s, es[0]);
      hide Inv, Apply, Enabled;
      InvRun(Apply(s, es[0]), es[1..]);
    }
  }

  lemma ReachableInv(s: State)
    requires Reachable(s)
    ensures Inv(s)
  {
    var es :| IsRun(INITIAL, es) && After(INITIAL, es) == s;
    InvRun(INITIAL, es);
  }

  // ---------- Call correlation ----------

  /** Whenever a Call has been answered, the answer is the result of an execution of exactly the
      request that this Call made; a Call to the broker itself gets the broker's reply, and a
      registration gets a harbor that was given out to this client. */
  lemma CallCorrelation(s: State, c: ClientId, q: nat)
    requires Reachable(s) && c < |s.clients|
    requires q in s.clients[c].node.returned || q in s.clients[c].node.slots
    ensures (c, q) in s.log.calls
    ensures var n := s.clients[c].node;
      var answer := (if q in n.returned then n.returned[q] else n.slots[q]).body;
      var request := s.log.calls[(c, q)];
      if request.topic != "Mq"
      then exists d :: Execution(d, request, answer) in s.log.executed
      else answer == NilStruct
           || (IsRegistration(request) && answer.RegisterReply? && Owns(s.log, c, answer.harbor))
  {
    ReachableInv(s);
    assert ClientOk(s.log, c, s.clients[c]);
    var n := s.clients[c].node;
    assert Answers(s.log, c, q, (if q in n.returned then n.returned[q] else n.slots[q]).body);
  }

  /** The response of a pending call finds its channel empty, so the reading goroutine never
      blocks; and a call that is pending has not returned. */
  lemma PendingChannelIsEmpty(s: State, c: ClientId, q: nat)
    requires Reachable(s) && c < |s.clients| && q in s.clients[c].node.pending
    ensures q !in s.clients[c].node.slots && q !in s.clients[c].node.returned
    ensures (c, q) in s.log.calls
  {
    ReachableInv(s);
    assert ClientOk(s.log, c, s.clients[c]);
  }

  /** Harbors identify clients. */
  lemma HarborsAreDistinct(s: State, c: ClientId, d: ClientId)
    requires Reachable(s) && c < |s.clients| && d < |s.clients| && c != d
    requires s.clients[c].node.harbor != 0
    ensures s.clients[c].node.harbor != s.clients[d].node.harbor
    ensures s.clients[c].node.harbor != s.clients[d].peer.harbor
  {
    ReachableInv(s);
    assert ClientOk(s.log, c, s.clients[c]) && ClientOk(s.log, d, s.clients[d]);
  }

  /** Call `q` of client `c` has been answered with message `m`. */
  predicate AnsweredWith(s: State, c: ClientId, q: nat, m: MqMsg) {
    c < |s.clients|
    && var n := s.clients[c].node;
    (q in n.slots && n.slots[q] == m) || (q in n.returned && n.returned[q] == m)
  }

  lemma AnswerStaysNode(l: Log, c: ClientId, n: Node, q: nat, m: MqMsg, r: MqMsg)
    requires NumbersOk(l, c, n)
    requires (q in n.slots && n.slots[q] == m) || (q in n.returned && n.returned[q] == m)
    ensures var k := DoMqMsg(n, r);
      (q in k.slots && k.slots[q] == m) || (q in k.returned && k.returned[q] == m)
    ensures forall p :: p in n.slots && p in n.calling ==> var k := EndCall(n, p);
      (q in k.slots && k.slots[q] == m) || (q in k.returned && k.returned[q] == m)
  {
  }

  /** The broker touches no client process. */
  lemma HandleKeepsNodes(s: State, c: ClientId, x: Client, m: MqMsg, accepted: bool, d: ClientId)
    requires c < |s.clients| && d < |s.clients| && x.node == s.clients[c].node
    ensures d < |Handle(s, c, x, m, accepted).clients|
    ensures Handle(s, c, x, m, accepted).clients[d].node == s.clients[d].node
  {
    hide Decide, Text.Trim;
  }

  lemma OthersKeepAnswers(s: State, e: Event, c: ClientId)
    requires Enabled(s, e) && c < |s.clients|
    requires !e.BrokerReads? && !e.CallEnds? && !e.ClientReads?
    ensures c < |Apply(s, e).clients|
    ensures Apply(s, e).clients[c].node.slots == s.clients[c].node.slots
    ensures Apply(s, e).clients[c].node.returned == s.clients[c].node.returned
  {
    hide Handle, EndCall, DoMqMsg, Subscribes;
  }

  /** In the client process itself, only the number of a message or of a returning call is touched. */
  lemma NodeKeepsAnswers(s: State, e: Event, c: ClientId, q: nat, m: MqMsg)
    requires Enabled(s, e) && AnsweredWith(s, c, q, m) && (e.CallEnds? || e.ClientReads?)
    requires NumbersOk(s.log, c, s.clients[c].node)
    ensures AnsweredWith(Apply(s, e), c, q, m)
  {
    var n := s.clients[c].node;
    if e.c == c {
      AnswerStaysNode(s.log, c, n, q, m, if e.ClientReads? then s.clients[c].down[0] else m);
      hide NumbersOk, DoMqMsg, EndCall;
      var n' := if e.ClientReads? then DoMqMsg(n, s.clients[c].down[0]) else EndCall(n, e.q);
      assert Apply(s, e).clients[c].node == n';
    } else {
      hide NumbersOk, DoMqMsg, EndCall;
      assert Apply(s, e).clients[c] == s.clients[c];
    }
  }

  lemma InvWriting(s: State, d: ClientId)
    requires Inv(s) && d < |s.clients|
    ensures s.clients[d].peer.outbox == [] ==> !s.clients[d].peer.writing
  {
    hide BrokerOk, NodeOk;
    assert ClientOk(s.log, d, s.clients[d]);
  }

  lemma InvNumbers(s: State, c: ClientId)
    requires Inv(s) && c < |s.clients|
    ensures NumbersOk(s.log, c, s.clients[c].node)
  {
    hide BrokerOk, NumbersOk, ContentsOk;
    assert ClientOk(s.log, c, s.clients[c]);
  }

  lemma AnswerStaysStep(s: State, e: Event, c: ClientId, q: nat, m: MqMsg)
    requires Inv(s) && Enabled(s, e) && AnsweredWith(s, c, q, m)
    ensures AnsweredWith(Apply(s, e), c, q, m)
  {
    hide Inv;
    if e.BrokerReads? {
      hide Handle;
      var x := s.clients[e.c];
      HandleKeepsNodes(s, e.c, x.(up := x.up[1..]), x.up[0], e.accepted, c);
    } else if e.CallEnds? || e.ClientReads? {
      hide Apply, Enabled;
      InvNumbers(s, c);
      NodeKeepsAnswers(s, e, c, q, m);
    } else {
      hide Apply, Enabled;
      OthersKeepAnswers(s, e, c);
    }
  }

  /** A pending call is completed at most once: whatever is delivered again later, an answer that
      a call has got is its answer for ever. */
  lemma {:induction false} AnswerIsFinal(s: State, es: seq<Event>, c: ClientId, q: nat, m: MqMsg)
    requires Reachable(s) && IsRun(s, es) && AnsweredWith(s, c, q, m)
    ensures AnsweredWith(After(s, es), c, q, m)
  {
    ReachableInv(s);
    AnswerStays(s, es, c, q, m);
  }

  lemma {:induction false} AnswerStays(s: State, es: seq<Event>, c: ClientId, q: nat, m: MqMsg)
    requires Inv(s) && IsRun(s, es) && AnsweredWith(s, c, q, m)
    ensures AnsweredWith(After(s, es), c, q, m)
    decreases |es|
  {
    if es != [] {
      AnswerStaysStep(s, es[0], c, q, m);
      InvStep(s, es[0]);
      hide Inv, Apply, Enabled, AnsweredWith;
      AnswerStays(Apply(s, es[0]), es[1..], c, q, m);
    }
  }

  // ---------- Runs, event by event ----------

  lemma RunCons(s: State, e: Event, es: seq<Event>)
    requires Enabled(s, e) && IsRun(Apply(s, e), es)
    ensures IsRun(s, [e] + es) && After(s, [e] + es) == After(Apply(s, e), es)
  {
    hide Apply, Enabled;
    assert ([e] + es)[1..] == es;
  }

  lemma RunOne(s: State, e: Event)
    requires Enabled(s, e)
    ensures IsRun(s, [e]) && After(s, [e]) == Apply(s, e)
  {
    assert IsRun(Apply(s, e), []);
    RunCons(s, e, []);
    assert [e] + [] == [e];
  }

  lemma {:induction false} RunAppend(s: State, es: seq<Event>, fs: seq<Event>)
    requires IsRun(s, es) && IsRun(After(s, es), fs)
    ensures IsRun(s, es + fs) && After(s, es + fs) == After(After(s, es), fs)
    decreases |es|
  {
    hide Apply, Enabled;
    if es == [] {
      assert es + fs == fs;
    } else {
      RunAppend(Apply(s, es[0]), es[1..], fs);
      RunCons(s, es[0], es[1..] + fs);
      assert es + fs == [es[0]] + (es[1..] + fs);
    }
  }

  // ---------- What an event does to a client's connection and to a queue ----------

  /** Event `e` makes the broker register client `d` (again). */
  predicate Registers(s: State, e: Event, d: ClientId) {
    e.BrokerReads? && e.c == d && d < |s.clients| && s.clients[d].up != []
    && Decide(s.clients[d].peer, s.clients[d].up[0]) == Register
  }

  predicate NeverRegisters(s: State, es: seq<Event>, d: ClientId)
    requires IsRun(s, es)
    decreases |es|
  {
    es == [] || (!Registers(s, es[0], d) && NeverRegisters(Apply(s, es[0]), es[1..], d))
  }

  predicate Reports(e: Event, d: ClientId) { e.ErrorReported? && e.c == d }

  predicate Breaks(e: Event, d: ClientId) { e.Break? && e.c == d }

  predicate Replies(e: Event, d: ClientId) { (e.ReplyConnects? || e.ReplyWrites?) && e.d == d }

  /** `y` is client `x` after an event that does not register it. */
  predicate PeerFollows(x: Client, y: Client, reported: bool, broken: bool, replied: bool) {
    && (x.peer.stopSubscribe ==> y.peer.stopSubscribe)
    && y.peer.start == (x.peer.start && !reported)
    && y.broken == (x.broken || broken)
    && (!replied ==> y.peer.writing == x.peer.writing && x.peer.outbox <= y.peer.outbox)
  }

  lemma RespondPeer(s: State, c: ClientId, x: Client, m: MqMsg, d: ClientId)
    requires c < |s.clients| && d < |s.clients|
    requires x == s.clients[c].(up := x.up) && Decide(x.peer, m) == Respond
    ensures var t := Handle(s, c, x, m, false);
      d < |t.clients| && PeerFollows(s.clients[d], t.clients[d], false, false, false)
  {
    hide Decide;
    var t := Put(s, c, x);
    assert t.clients[d].peer == s.clients[d].peer && t.clients[d].broken == s.clients[d].broken;
  }

  lemma HandlePeer(s: State, c: ClientId, x: Client, m: MqMsg, accepted: bool, d: ClientId)
    requires c < |s.clients| && d < |s.clients|
    requires x == s.clients[c].(up := x.up)
    requires c == d ==> Decide(x.peer, m) != Register
    ensures var t := Handle(s, c, x, m, accepted);
      d < |t.clients| && PeerFollows(s.clients[d], t.clients[d], false, false, false)
  {
    if Decide(x.peer, m) == Respond {
      RespondPeer(s, c, x, m, d);
      hide Decide;
    } else if d == c {
      hide Decide, Text.Trim, PeerFollows;
      OwnPeer(s, c, x, m, accepted);
    } else {
      hide Decide, Text.Trim, ReplyTo;
      assert Handle(s, c, x, m, accepted).clients[d] == s.clients[d];
    }
  }

  lemma OwnPeer(s: State, c: ClientId, x: Client, m: MqMsg, accepted: bool)
    requires c < |s.clients| && x == s.clients[c].(up := x.up)
    requires Decide(x.peer, m) != Register && Decide(x.peer, m) != Respond
    ensures var t := Handle(s, c, x, m, accepted);
      c < |t.clients| && PeerFollows(s.clients[c], t.clients[c], false, false, false)
  {
    hide Decide;
  }

  lemma PeerOfOthers(s: State, e: Event, d: ClientId)
    requires Enabled(s, e) && d < |s.clients| && !e.BrokerReads?
    ensures d < |Apply(s, e).clients|
    ensures PeerFollows(s.clients[d], Apply(s, e).clients[d], Reports(e, d), Breaks(e, d), Replies(e, d))
  {
    hide DoMqMsg, EndCall, BeginCall, Subscribes, Handle, QueueTested, QueueConnected, QueueWritten;
  }

  lemma PeerStep(s: State, e: Event, d: ClientId)
    requires Enabled(s, e) && d < |s.clients| && !Registers(s, e, d)
    ensures d < |Apply(s, e).clients|
    ensures PeerFollows(s.clients[d], Apply(s, e).clients[d], Reports(e, d), Breaks(e, d), Replies(e, d))
  {
    if e.BrokerReads? {
      hide Handle, Decide, PeerFollows;
      var x := s.clients[e.c];
      HandlePeer(s, e.c, x.(up := x.up[1..]), x.up[0], e.accepted, d);
    } else {
      hide Apply, PeerFollows;
      PeerOfOthers(s, e, d);
    }
  }

  predicate IsQueueEvent(e: Event, key: Key) {
    (e.QueueLooksUp? || e.QueueTests? || e.QueueConnects? || e.QueueWrites?) && e.key == key
  }

  predicate QueueFollows(q: Queue, r: Queue) {
    r.client == q.client && r.phase == q.phase && q.messages <= r.messages && r.topic == q.topic && r.tag == q.tag
  }

  lemma HandleQueue(s: State, c: ClientId, x: Client, m: MqMsg, accepted: bool, key: Key)
    requires c < |s.clients|
    ensures var t := Handle(s, c, x, m, accepted);
      if key in s.queues then key in t.queues && QueueFollows(s.queues[key], t.queues[key])
      else key in t.queues ==> t.queues[key].client.None? && t.queues[key].phase.Idle?
  {
    hide Decide, Text.Trim;
  }

  /** Only its own events change a queue's client and phase. */
  lemma QueueStep(s: State, e: Event, key: Key)
    requires Enabled(s, e) && !IsQueueEvent(e, key)
    ensures var t := Apply(s, e);
      if key in s.queues then key in t.queues && QueueFollows(s.queues[key], t.queues[key])
      else key in t.queues ==> t.queues[key].client.None? && t.queues[key].phase.Idle?
  {
    hide DoMqMsg, EndCall, BeginCall, Subscribes, Handle, Decide;
    hide QueueTested, QueueConnected, QueueWritten, Arrived, ReplyWritten;
    if e.BrokerReads? {
      var x := s.clients[e.c];
      HandleQueue(s, e.c, x.(up := x.up[1..]), x.up[0], e.accepted, key);
    }
  }

  // ---------- Stop-subscribe ----------

  predicate Unsubscribed(s: State, d: ClientId) {
    d < |s.clients| && s.clients[d].peer.stopSubscribe
  }

  /** The queue's producer tested the StopSubscribe bit of `d` before, and may still write to it. */
  predicate Holds(s: State, key: Key, d: ClientId) {
    && key in s.queues && s.queues[key].client == Some(d) && d < |s.clients|
    && (s.queues[key].phase.Ready? || (s.queues[key].phase.Tested? && s.clients[d].peer.start))
  }

  /** Event `e` is a write of that queue to `d`. */
  predicate WritesTo(s: State, e: Event, key: Key, d: ClientId) {
    e.QueueWrites? && e.key == key && key in s.queues && s.queues[key].client == Some(d)
  }

  /** Event `e` is a test of the StopSubscribe bit of `d` that the queue's producer gets past. */
  predicate Picks(s: State, e: Event, key: Key, d: ClientId)
    requires Enabled(s, e)
  {
    && e.QueueTests? && e.key == key && key in s.queues && s.queues[key].client == Some(d)
    && Apply(s, e).queues[key].phase.Tested?
  }

  function WriteCount(s: State, es: seq<Event>, key: Key, d: ClientId): nat
    requires IsRun(s, es)
    decreases |es|
  {
    if es == [] then 0
    else (if WritesTo(s, es[0], key, d) then 1 else 0) + WriteCount(Apply(s, es[0]), es[1..], key, d)
  }

  lemma OwnQueueStep(s: State, e: Event, key: Key, d: ClientId)
    requires Inv(s) && Enabled(s, e) && Unsubscribed(s, d) && IsQueueEvent(e, key)
    ensures Holds(Apply(s, e), key, d) ==> Holds(s, key, d) && !WritesTo(s, e, key, d)
    ensures !Picks(s, e, key, d)
  {
    hide ClientOk, Subscribes, RequestOk;
    assert QueueOk(s.log, |s.clients|, s.queues[key]);
  }

  /** After the bit is set no pick returns `d`; a queue that writes to `d` held it before, and then
      holds it no more. */
  lemma HoldsStep(s: State, e: Event, key: Key, d: ClientId)
    requires Inv(s) && Enabled(s, e) && Unsubscribed(s, d) && !Registers(s, e, d)
    ensures Unsubscribed(Apply(s, e), d)
    ensures Holds(Apply(s, e), key, d) ==> Holds(s, key, d) && !WritesTo(s, e, key, d)
    ensures WritesTo(s, e, key, d) ==> Holds(s, key, d)
    ensures !Picks(s, e, key, d)
  {
    PeerStep(s, e, d);
    if IsQueueEvent(e, key) {
      OwnQueueStep(s, e, key, d);
      hide Apply, Inv;
    } else {
      QueueStep(s, e, key);
      hide Apply, Enabled, Inv, Registers;
    }
  }

  ghost predicate NeverPicked(s: State, es: seq<Event>, d: ClientId)
    requires IsRun(s, es)
    decreases |es|
  {
    es == [] || ((forall key :: !Picks(s, es[0], key, d)) && NeverPicked(Apply(s, es[0]), es[1..], d))
  }

  /** From the moment the broker has noted that a client stops its subscription, and as long as it
      does not register again: the bit stays, no queue picks the client, and a queue writes to it at
      most once, and only if it had picked it before. */
  lemma {:induction false} StopSubscribeIsFinal(s: State, es: seq<Event>, key: Key, d: ClientId)
    requires Inv(s) && IsRun(s, es) && Unsubscribed(s, d) && NeverRegisters(s, es, d)
    ensures Unsubscribed(After(s, es), d) && NeverPicked(s, es, d)
    ensures WriteCount(s, es, key, d) <= if Holds(s, key, d) then 1 else 0
    decreases |es|
  {
    if es != [] {
      forall k
        ensures !Picks(s, es[0], k, d)
      {
        HoldsStep(s, es[0], k, d);
      }
      HoldsStep(s, es[0], key, d);
      InvStep(s, es[0]);
      hide Inv, Apply, Enabled, Holds, Unsubscribed, WritesTo, Picks, Registers;
      StopSubscribeIsFinal(Apply(s, es[0]), es[1..], key, d);
    }
  }

  /** No queue ever writes to `d` again, unless `d` registers again. */
  ghost predicate Silent(s: State, d: ClientId) {
    forall es, key :: IsRun(s, es) && NeverRegisters(s, es, d) ==> WriteCount(s, es, key, d) == 0
  }

  lemma HeldWrites(s: State, key: Key, d: ClientId) returns (es: seq<Event>)
    requires Inv(s) && Holds(s, key, d)
    ensures IsRun(s, es) && NeverRegisters(s, es, d) && WriteCount(s, es, key, d) == 1
  {
    hide ClientOk, RequestOk, Arrived;
    assert QueueOk(s.log, |s.clients|, s.queues[key]);
    var w := QueueWrites(key, Written);
    if s.queues[key].phase.Ready? {
      OneWrite(s, key, d);
      es := [w];
    } else {
      var c := QueueConnects(key);
      var t := Apply(s, c);
      OneWrite(t, key, d);
      RunCons(s, c, [w]);
      es := [c] + [w];
      assert es[1..] == [w] && !Registers(s, c, d);
    }
  }

  lemma OneWrite(s: State, key: Key, d: ClientId)
    requires Enabled(s, QueueWrites(key, Written)) && s.queues[key].client == Some(d)
    ensures var es := [QueueWrites(key, Written)];
      IsRun(s, es) && NeverRegisters(s, es, d) && WriteCount(s, es, key, d) == 1
  {
    var w := QueueWrites(key, Written);
    RunOne(s, w);
    assert [w][1..] == [] && !Registers(s, w, d);
    assert WriteCount(Apply(s, w), [], key, d) == 0;
  }

  /** Nothing is written to the client after the stop if and only if no queue holds a pick of it at
      that moment. */
  lemma SilentIffNotHeld(s: State, d: ClientId)
    requires Reachable(s) && Unsubscribed(s, d)
    ensures Silent(s, d) <==> forall key :: !Holds(s, key, d)
  {
    ReachableInv(s);
    hide Inv;
    if key: Key :| Holds(s, key, d) {
      var es := HeldWrites(s, key, d);
    } else {
      forall es, key | IsRun(s, es) && NeverRegisters(s, es, d)
        ensures WriteCount(s, es, key, d) == 0
      {
        StopSubscribeIsFinal(s, es, key, d);
      }
    }
  }

  // ---------- The replies of an unsubscribed client ----------

  /** The broker still writes replies to the client. */
  predicate Serving(s: State, d: ClientId) {
    Unsubscribed(s, d) && s.clients[d].peer.start && !s.clients[d].broken
  }

  predicate Disturbs(s: State, e: Event, d: ClientId) {
    Registers(s, e, d) || Reports(e, d) || Breaks(e, d)
  }

  predicate NeverDisturbed(s: State, es: seq<Event>, d: ClientId)
    requires IsRun(s, es)
    decreases |es|
  {
    es == [] || (!Disturbs(s, es[0], d) && NeverDisturbed(Apply(s, es[0]), es[1..], d))
  }

  /** Only a reported error, which clears Start, the break of the connection, and a new registration
      end that, and each of them does. */
  lemma ServingStep(s: State, e: Event, d: ClientId)
    requires Enabled(s, e) && Serving(s, d)
    ensures Serving(Apply(s, e), d) <==> !Disturbs(s, e, d)
  {
    if Registers(s, e, d) {
      hide Decide, Text.Trim;
    } else {
      PeerStep(s, e, d);
      hide Apply, Enabled, Registers;
    }
  }

  lemma {:induction false} ServingStays(s: State, es: seq<Event>, d: ClientId)
    requires IsRun(s, es) && Serving(s, d) && NeverDisturbed(s, es, d)
    ensures Serving(After(s, es), d)
    decreases |es|
  {
    if es != [] {
      ServingStep(s, es[0], d);
      hide Apply, Enabled, Serving, Disturbs;
      ServingStays(Apply(s, es[0]), es[1..], d);
    }
  }

  predicate Lost(s: State, d: ClientId) {
    d < |s.clients| && (!s.clients[d].peer.start || s.clients[d].broken)
  }

  lemma {:induction false} LostStays(s: State, es: seq<Event>, d: ClientId)
    requires IsRun(s, es) && Lost(s, d) && NeverRegisters(s, es, d)
    ensures Lost(After(s, es), d)
    decreases |es|
  {
    if es != [] {
      PeerStep(s, es[0], d);
      hide Apply, Enabled, Registers;
      LostStays(Apply(s, es[0]), es[1..], d);
    }
  }

  /** Over any run without a new registration: the client is still served at the end if and only if
      no error was reported for it and its connection did not break. */
  lemma {:induction false} ServedIffUndisturbed(s: State, es: seq<Event>, d: ClientId)
    requires IsRun(s, es) && Serving(s, d) && NeverRegisters(s, es, d)
    ensures Serving(After(s, es), d) <==> forall i :: 0 <= i < |es| ==> !Reports(es[i], d) && !Breaks(es[i], d)
    decreases |es|
  {
    if es != [] {
      var t := Apply(s, es[0]);
      ServingStep(s, es[0], d);
      PeerStep(s, es[0], d);
      hide Apply, Enabled, Registers;
      assert forall i :: 0 < i < |es| ==> es[i] == es[1..][i - 1];
      if Disturbs(s, es[0], d) {
        LostStays(t, es[1..], d);
      } else {
        ServedIffUndisturbed(t, es[1..], d);
        assert forall i :: 0 <= i < |es| - 1 ==> es[1..][i] == es[i + 1];
      }
    }
  }

  /** What the client's connection carries once the whole outbox has been written. */
  function Flushed(x: Client): Client {
    x.(down := x.down + x.peer.outbox, peer := x.peer.(outbox := [], writing := false))
  }

  lemma ReplyGoes(s: State, d: ClientId) returns (es: seq<Event>)
    requires d < |s.clients| && s.clients[d].peer.start && !s.clients[d].broken && s.clients[d].peer.outbox != []
    ensures IsRun(s, es) && (forall i :: 0 <= i < |es| ==> Replies(es[i], d))
    ensures var x := s.clients[d];
      After(s, es) == Put(s, d, x.(down := x.down + [x.peer.outbox[0]],
                                   peer := x.peer.(outbox := x.peer.outbox[1..], writing := false)))
  {
    var x := s.clients[d];
    var c, w := ReplyConnects(d), ReplyWrites(d, Written);
    if x.peer.writing {
      RunOne(s, w);
      es := [w];
    } else {
      var t := Apply(s, c);
      assert Put(t, d, ReplyWritten(t.clients[d], Written)) == Put(s, d, ReplyWritten(t.clients[d], Written));
      RunOne(t, w);
      RunCons(s, c, [w]);
      es := [c] + [w];
    }
  }

  /** While the broker serves a client, everything in its outbox can be delivered, in order, by the
      reply producer alone. */
  lemma {:induction false} RepliesDelivered(s: State, d: ClientId) returns (es: seq<Event>)
    requires d < |s.clients| && s.clients[d].peer.start && !s.clients[d].broken
    requires s.clients[d].peer.outbox == [] ==> !s.clients[d].peer.writing
    ensures IsRun(s, es) && forall i :: 0 <= i < |es| ==> Replies(es[i], d)
    ensures After(s, es) == Put(s, d, Flushed(s.clients[d]))
    decreases |s.clients[d].peer.outbox|
  {
    var x := s.clients[d];
    es := [];
    if x.peer.outbox == [] {
      assert x.down + [] == x.down;
      assert Put(s, d, Flushed(x)) == s;
    } else {
      hide Apply, Enabled;
      es := ReplyGoes(s, d);
      var t := After(s, es);
      var fs := RepliesDelivered(t, d);
      RunAppend(s, es, fs);
      es := es + fs;
      assert x.down + [x.peer.outbox[0]] + x.peer.outbox[1..] == x.down + x.peer.outbox;
      assert Flushed(t.clients[d]) == Flushed(x);
      assert Put(t, d, Flushed(x)) == Put(s, d, Flushed(x));
    }
  }

  /** The flow of replies to an unsubscribed client: it lasts over every run that does not disturb
      it, and at any point of such a run all that has been queued can be delivered in order. */
  lemma RepliesKeepFlowing(s: State, es: seq<Event>, d: ClientId)
    requires Reachable(s) && IsRun(s, es) && Serving(s, d) && NeverDisturbed(s, es, d)
    ensures Serving(After(s, es), d)
    ensures exists fs :: Flushes(After(s, es), fs, d)
  {
    ServingStays(s, es, d);
    ReachableInv(s);
    InvRun(s, es);
    var t := After(s, es);
    hide Apply, Enabled;
    InvWriting(t, d);
    var fs := RepliesDelivered(t, d);
    assert Flushes(t, fs, d);
  }

  /** The events `fs` are those of the client's reply producer, and they empty its outbox. */
  ghost predicate Flushes(s: State, fs: seq<Event>, d: ClientId) {
    && d < |s.clients| && IsRun(s, fs) && (forall i :: 0 <= i < |fs| ==> Replies(fs[i], d))
    && After(s, fs) == Put(s, d, Flushed(s.clients[d]))
  }

  predicate Replied(s: State, es: seq<Event>, d: ClientId)
    requires IsRun(s, es)
  {
    exists i :: 0 <= i < |es| && es[i].ReplyWrites? && es[i].d == d
  }

  lemma StoppedStep(s: State, e: Event, d: ClientId)
    requires Enabled(s, e) && d < |s.clients| && !s.clients[d].peer.start && !s.clients[d].peer.writing
    requires !Registers(s, e, d)
    ensures !(e.ReplyWrites? && e.d == d)
    ensures var t := Apply(s, e); d < |t.clients| && !t.clients[d].peer.start && !t.clients[d].peer.writing
  {
    PeerStep(s, e, d);
    hide Apply, Registers;
  }

  lemma {:induction false} StoppedStays(s: State, es: seq<Event>, d: ClientId)
    requires IsRun(s, es) && d < |s.clients| && !s.clients[d].peer.start && !s.clients[d].peer.writing
    requires NeverRegisters(s, es, d)
    ensures !Replied(s, es, d)
    decreases |es|
  {
    if es != [] {
      StoppedStep(s, es[0], d);
      StoppedStays(Apply(s, es[0]), es[1..], d);
      hide Apply, Enabled, Registers;
      forall i | 0 <= i < |es|
        ensures !(es[i].ReplyWrites? && es[i].d == d)
      {
        if i > 0 {
          assert es[i] == es[1..][i - 1];
        }
      }
    }
  }

  /** A client's reply can still be written, without a new registration, exactly if Start is set or
      its producer already holds the connection. */
  lemma RepliesFlowIffStarted(s: State, d: ClientId)
    requires d < |s.clients| && s.clients[d].peer.outbox != []
    ensures (exists es :: IsRun(s, es) && NeverRegisters(s, es, d) && Replied(s, es, d))
      <==> s.clients[d].peer.start || s.clients[d].peer.writing
  {
    var c, w := ReplyConnects(d), ReplyWrites(d, Written);
    if s.clients[d].peer.writing {
      RunOne(s, w);
      assert NeverRegisters(Apply(s, w), [], d) && [w][1..] == [];
      assert [w][0] == w && Replied(s, [w], d);
    } else if s.clients[d].peer.start {
      var t := Apply(s, c);
      RunOne(t, w);
      RunCons(s, c, [w]);
      var es := [c] + [w];
      assert es[1..] == [w] && [w][1..] == [] && NeverRegisters(Apply(t, w), [], d);
      assert NeverRegisters(t, [w], d) && es[1] == w && Replied(s, es, d);
    } else {
      forall es | IsRun(s, es) && NeverRegisters(s, es, d)
        ensures !Replied(s, es, d)
      {
        StoppedStays(s, es, d);
      }
    }
  }

  // ---------- An undisturbed call ----------

  /** Nothing is under way on the client's connection. */
  predicate Quiet(x: Client) {
    x.up == [] && x.down == [] && x.peer.outbox == [] && x.node.executing == []
    && x.peer.start && !x.peer.writing && !x.broken
  }

  /** The client is registered: it, its connection and the harbor index agree. */
  predicate Home(s: State, c: ClientId) {
    c < |s.clients| && Quiet(s.clients[c])
    && var h := s.clients[c].node.harbor;
    h != 0 && s.clients[c].peer.harbor == h && h in s.harborClient && s.harborClient[h] == c
  }

  /** The request is queued, and the queue's producer holds the subscriber's connection. */
  lemma RequestQueued(s: State, c: ClientId, d: ClientId, m: MqMsg) returns (es: seq<Event>)
    requires Home(s, c) && Home(s, d) && c != d
    requires m == RequestOf(s.clients[c].node, m.topic, m.tag, m.class_, m.method_, m.body)
    requires m.topic != "Mq" && m.tag != "*"
    requires Subscribes(s.clients[d].peer, m.topic, m.tag) && !s.clients[d].peer.stopSubscribe
    requires KeyOf(m.topic, m.tag) in s.queues ==>
      s.queues[KeyOf(m.topic, m.tag)] == Queue(m.topic, m.tag, [], None, Idle)
    ensures IsRun(s, es)
    ensures After(s, es) == Asked(s, c, m, Queue(m.topic, m.tag, [m], Some(d), Ready))
  {
    hide Subscribes, Apply, Enabled, Decide;
    var key := KeyOf(m.topic, m.tag);
    es := RequestEnters(s, c, m);
    var t := After(s, es);
    assert [] + [m] == [m];
    assert t.clients[d] == s.clients[d] && t.queues[key] == Queue(m.topic, m.tag, [m], None, Idle);
    var fs := QueueGetsReady(t, key, d);
    assert After(t, fs) == Asked(s, c, m, Queue(m.topic, m.tag, [m], Some(d), Ready));
    RunAppend(s, es, fs);
    es := es + fs;
  }

  lemma RequestEnters(s: State, c: ClientId, m: MqMsg) returns (es: seq<Event>)
    requires Home(s, c) && m.topic != "Mq"
    requires m == RequestOf(s.clients[c].node, m.topic, m.tag, m.class_, m.method_, m.body)
    ensures IsRun(s, es) && After(s, es) == Asked(s, c, m, Enqueued(s, KeyOf(m.topic, m.tag), m))
  {
    hide Subscribes;
    var x := s.clients[c];
    var e1 := CallBegins(c, m.topic, m.tag, m.class_, m.method_, m.body);
    var s1 := Apply(s, e1);
    assert s1.clients[c] == x.(node := BeginCall(x.node, m), up := [m]);
    var e2 := BrokerReads(c, false);
    assert Decide(x.peer, m) == Enqueue && [m][1..] == [] && [] + [m] == [m];
    assert Apply(s1, e2) == Asked(s, c, m, Enqueued(s, KeyOf(m.topic, m.tag), m));
    RunOne(s1, e2);
    RunCons(s, e1, [e2]);
    es := [e1] + [e2];
  }

  /** The state when client `c` has made the request `m` and the queue of `m` is `q`. */
  function Asked(s: State, c: ClientId, m: MqMsg, q: Queue): State
    requires c < |s.clients|
  {
    SetQueue(Put(s, c, s.clients[c].(node := BeginCall(s.clients[c].node, m))), KeyOf(m.topic, m.tag), q)
      .(log := s.log.(calls := s.log.calls[(c, m.seq_) := m]))
  }

  lemma QueueGetsReady(s: State, key: Key, d: ClientId) returns (es: seq<Event>)
    requires key in s.queues && s.queues[key].messages != [] && s.queues[key].client.None? && s.queues[key].phase.Idle?
    requires Listed(s, d) && Subscribes(s.clients[d].peer, s.queues[key].topic, s.queues[key].tag)
    requires s.clients[d].peer.start && !s.clients[d].peer.stopSubscribe
    ensures IsRun(s, es) && After(s, es) == SetQueue(s, key, s.queues[key].(client := Some(d), phase := Ready))
  {
    hide Subscribes;
    var q := s.queues[key];
    var e1, e2, e3 := QueueLooksUp(key, d), QueueTests(key), QueueConnects(key);
    var s1 := Apply(s, e1);
    var s2 := Apply(s1, e2);
    assert s2 == SetQueue(s, key, q.(client := Some(d), phase := Tested));
    RunOne(s2, e3);
    RunCons(s1, e2, [e3]);
    RunCons(s, e1, [e2] + [e3]);
    es := [e1] + ([e2] + [e3]);
  }

  /** The request reaches the subscriber. */
  lemma RequestTravels(s: State, c: ClientId, d: ClientId, m: MqMsg) returns (es: seq<Event>)
    requires Home(s, c) && Home(s, d) && c != d
    requires m == RequestOf(s.clients[c].node, m.topic, m.tag, m.class_, m.method_, m.body)
    requires m.topic != "Mq" && m.tag != "*"
    requires Subscribes(s.clients[d].peer, m.topic, m.tag) && !s.clients[d].peer.stopSubscribe
    requires KeyOf(m.topic, m.tag) in s.queues ==>
      s.queues[KeyOf(m.topic, m.tag)] == Queue(m.topic, m.tag, [], None, Idle)
    ensures IsRun(s, es)
    ensures var t := After(s, es);
      && |t.clients| == |s.clients| && t.harborClient == s.harborClient
      && t.clients[c] == s.clients[c].(node := BeginCall(s.clients[c].node, m))
      && t.clients[d] == s.clients[d].(node := s.clients[d].node.(executing := [m]))
      && t.log.calls == s.log.calls[(c, m.seq_) := m]
  {
    hide Subscribes, Decide;
    es := RequestQueued(s, c, d, m);
    var s1 := After(s, es);
    var e1, e2 := QueueWrites(KeyOf(m.topic, m.tag), Written), ClientReads(d);
    var s2 := Apply(s1, e1);
    assert [] + [m] == [m] && [m][1..] == [];
    assert s2.clients[d] == s.clients[d].(down := [m]);
    RunOne(s2, e2);
    RunCons(s1, e1, [e2]);
    RunAppend(s, es, [e1] + [e2]);
    es := es + ([e1] + [e2]);
  }

  /** The client's request to stop its subscription is noted and answered. */
  lemma StopTravels(s: State, d: ClientId) returns (es: seq<Event>, r: MqMsg)
    requires d < |s.clients| && Quiet(s.clients[d]) && s.clients[d].peer.harbor != 0
    ensures IsRun(s, es) && r.typ == TypeRespond && r.body == NilStruct
    ensures var t := After(s, es);
      && d < |t.clients| && t.queues == s.queues && Unsubscribed(t, d)
      && t.clients[d].down == [r] && !t.clients[d].broken
  {
    var x := s.clients[d];
    var m := RequestOf(x.node, "Mq", "*", "Mq", ON_STOP_SUBSCRIBE, NilStruct);
    r := ReplyMqMsg(x.peer.harbor, m.seq_, NilStruct);
    var e1 := CallBegins(d, m.topic, m.tag, m.class_, m.method_, m.body);
    var s1 := Apply(s, e1);
    assert s1.clients[d] == x.(node := BeginCall(x.node, m), up := [m]);
    var e2 := BrokerReads(d, false);
    var s2 := Apply(s1, e2);
    assert Decide(x.peer, m) == StopSubscribe;
    assert s2.clients[d].peer == x.peer.(stopSubscribe := true, outbox := [r]);
    var fs := ReplyGoes(s2, d);
    assert [] + [r] == [r];
    RunCons(s1, e2, fs);
    RunCons(s, e1, [e2] + fs);
    es := [e1] + ([e2] + fs);
  }

  /** The stop of a subscription does not keep a queue from writing once more: a producer that
      tested the bits before writes its message afterwards, even behind the reply to the stop. */
  lemma WriteAfterStop(s: State, c: ClientId, d: ClientId, m: MqMsg) returns (es: seq<Event>, e: Event)
    requires Home(s, c) && Home(s, d) && c != d
    requires m == RequestOf(s.clients[c].node, m.topic, m.tag, m.class_, m.method_, m.body)
    requires m.topic != "Mq" && m.tag != "*"
    requires Subscribes(s.clients[d].peer, m.topic, m.tag) && !s.clients[d].peer.stopSubscribe
    requires KeyOf(m.topic, m.tag) in s.queues ==>
      s.queues[KeyOf(m.topic, m.tag)] == Queue(m.topic, m.tag, [], None, Idle)
    ensures IsRun(s, es) && Enabled(After(s, es), e) && WritesTo(After(s, es), e, KeyOf(m.topic, m.tag), d)
    ensures var t := After(s, es);
      && Unsubscribed(t, d) && |t.clients[d].down| == 1 && t.clients[d].down[0].body == NilStruct
      && d < |Apply(t, e).clients| && Apply(t, e).clients[d].down == t.clients[d].down + [m]
  {
    hide Subscribes, Decide;
    var fs := RequestQueued(s, c, d, m);
    var t := After(s, fs);
    assert t.clients[d] == s.clients[d];
    var gs, r := StopTravels(t, d);
    RunAppend(s, fs, gs);
    es := fs + gs;
    e := QueueWrites(KeyOf(m.topic, m.tag), Written);
  }

  /** The client `x` when the response `r` in its outbox has arrived and its Call has returned. */
  function Answered(x: Client, r: MqMsg): Client
    requires r.seq_ in x.node.pending && r.seq_ in x.node.calling
    requires r.typ == TypeRespond && r.topic == "" && r.tag == ""
  {
    x.(node := EndCall(DoMqMsg(x.node, r), r.seq_), peer := x.peer.(outbox := []))
  }

  lemma AnswerTravels(s: State, c: ClientId, x: Client, r: MqMsg) returns (es: seq<Event>)
    requires c < |s.clients| && s.clients[c] == x && x.peer.start && !x.peer.writing && !x.broken
    requires x.peer.outbox == [r] && x.down == []
    requires r.seq_ in x.node.pending && r.seq_ in x.node.calling
    requires r.typ == TypeRespond && r.topic == "" && r.tag == ""
    ensures IsRun(s, es) && After(s, es) == Put(s, c, Answered(x, r))
  {
    hide Handle, Subscribes, EndCall, DoMqMsg;
    assert x.down + [r] == [r] && x.peer.outbox[1..] == [];
    var fs := ReplyGoes(s, c);
    var y := x.(down := [r], peer := x.peer.(outbox := [], writing := false));
    var s3 := After(s, fs);
    assert s3 == Put(s, c, y) && y.down[1..] == [];
    var e4 := ClientReads(c);
    var s4 := Apply(s3, e4);
    assert s4 == Put(s, c, y.(down := [], node := DoMqMsg(x.node, r)));
    EndsAfter(x.node, r);
    var e5 := CallEnds(c, r.seq_);
    assert Apply(s4, e5) == Put(s, c, Answered(x, r));
    RunOne(s4, e5);
    RunCons(s3, e4, [e5]);
    RunAppend(s, fs, [e4] + [e5]);
    es := fs + ([e4] + [e5]);
  }

  lemma EndsAfter(n: Node, r: MqMsg)
    requires r.seq_ in n.pending && r.seq_ in n.calling && r.typ == TypeRespond && r.topic == "" && r.tag == ""
    ensures r.seq_ in DoMqMsg(n, r).slots && r.seq_ in DoMqMsg(n, r).calling
  {
  }

  /** The result reaches the caller's channel and its Call returns. */
  lemma ResponseTravels(s: State, c: ClientId, d: ClientId, m: MqMsg, result: Body) returns (es: seq<Event>)
    requires Home(s, c) && c != d && d < |s.clients| && m.harbor == s.clients[c].node.harbor && m.topic != "Mq"
    requires Quiet(s.clients[d].(node := s.clients[d].node.(executing := []))) && s.clients[d].node.executing == [m]
    requires s.clients[d].peer.harbor != 0
    requires m.seq_ in s.clients[c].node.pending
    requires m.seq_ in s.clients[c].node.calling && s.clients[c].node.calling[m.seq_] == m
    requires (c, m.seq_) in s.log.calls && s.log.calls[(c, m.seq_)] == m
    ensures IsRun(s, es) && AnswerReturned(After(s, es), c, m, result)
  {
    var x, y := s.clients[c], s.clients[d];
    var r := ReplyMqMsg(m.harbor, m.seq_, result);
    var e1 := HandlerReturns(d, 0, result);
    var s1 := Apply(s, e1);
    assert s1.clients[d] == y.(node := y.node.(executing := []), up := [r]);
    var e2 := BrokerReads(d, false);
    var s2 := Apply(s1, e2);
    assert Decide(y.peer, r) == Respond;
    assert s2.clients[c] == x.(peer := x.peer.(outbox := [r]));
    var fs := AnswerTravels(s2, c, s2.clients[c], r);
    RunCons(s1, e2, fs);
    RunCons(s, e1, [e2] + fs);
    es := [e1] + ([e2] + fs);
  }

  /** Client `c` made the request `m`, and that Call has returned the result. */
  predicate AnswerReturned(s: State, c: ClientId, m: MqMsg, result: Body) {
    && c < |s.clients| && m.seq_ in s.clients[c].node.returned && s.clients[c].node.returned[m.seq_].body == result
    && (c, m.seq_) in s.log.calls && s.log.calls[(c, m.seq_)] == m
  }

  /** Between two registered clients a Call can complete with whatever the subscriber's handler
      returns: the correlation theorem does not hold for want of completed calls. */
  lemma CallCompletes(s: State, c: ClientId, d: ClientId, m: MqMsg, result: Body)
    requires Home(s, c) && Home(s, d) && c != d
    requires m == RequestOf(s.clients[c].node, m.topic, m.tag, m.class_, m.method_, m.body)
    requires m.topic != "Mq" && m.tag != "*"
    requires Subscribes(s.clients[d].peer, m.topic, m.tag) && !s.clients[d].peer.stopSubscribe
    requires KeyOf(m.topic, m.tag) in s.queues ==>
      s.queues[KeyOf(m.topic, m.tag)] == Queue(m.topic, m.tag, [], None, Idle)
    ensures exists es :: IsRun(s, es) && AnswerReturned(After(s, es), c, m, result)
  {
    hide Subscribes, Enabled, Apply;
    var es := RequestTravels(s, c, d, m);
    var t := After(s, es);
    var fs := ResponseTravels(t, c, d, m, result);
    RunAppend(s, es, fs);
    assert AnswerReturned(After(s, es + fs), c, m, result);
  }

  predicate RegisteredAs(s: State, c: ClientId, topic: string, tag: string, harbor: nat) {
    && Home(s, c) && s.clients[c].node.harbor == harbor
    && s.clients[c].peer.topic == Text.Trim(topic, Text.BLANKS) && s.clients[c].peer.tag == Text.Trim(tag, Text.BLANKS)
  }

  /** All that a registration of client `c` under harbor `h` changes besides `c` is the harbor index. */
  predicate RegistersOnly(s: State, t: State, c: ClientId, h: nat) {
    && |t.clients| == |s.clients| && (forall d: ClientId :: d < |s.clients| && d != c ==> t.clients[d] == s.clients[d])
    && t.harborCount == h && t.harborClient == s.harborClient[h := c] && t.queues == s.queues
  }

  /** What a registration for a topic and tag leaves in the history. */
  function GrantOf(c: ClientId, topic: string, tag: string): Grant {
    Grant(c, Text.Trim(topic, Text.BLANKS), Text.Trim(tag, Text.BLANKS))
  }

  /** The broker's side of an accepted registration. */
  lemma RegistrationTravels(s: State, c: ClientId, m: MqMsg) returns (es: seq<Event>, x: Client)
    requires c < |s.clients| && Quiet(s.clients[c]) && s.clients[c].peer.harbor == 0
    requires m == RequestOf(s.clients[c].node, "Mq", "*", "Mq", ON_REGISTER, m.body)
    requires m.body.RegisterRequest? && m.body.instance != "" && m.body.harbor == 0
    ensures IsRun(s, es)
    ensures var t, h := After(s, es), s.harborCount + 1;
      && c < |t.clients| && t.clients[c] == x && RegistersOnly(s, t, c, h)
      && x == Registered(s.clients[c].(node := BeginCall(s.clients[c].node, m)), m, h, true)
      && t.log.granted == s.log.granted + {GrantOf(c, m.body.topic, m.body.tag)}
  {
    hide Text.Trim, Subscribes;
    var e1 := CallBegins(c, m.topic, m.tag, m.class_, m.method_, m.body);
    var s1 := Apply(s, e1);
    assert s1.clients[c] == s.clients[c].(node := BeginCall(s.clients[c].node, m), up := [m]);
    var e2 := BrokerReads(c, true);
    assert Decide(s.clients[c].peer, m) == Register;
    x := Apply(s1, e2).clients[c];
    RunOne(s1, e2);
    RunCons(s, e1, [e2]);
    es := [e1] + [e2];
  }

  /** A registration that the broker accepts brings client and broker to agree on a fresh harbor, and
      leaves all else as it is. */
  lemma RegistrationCompletes(s: State, c: ClientId, instance: string, topic: string, tag: string)
    returns (es: seq<Event>)
    requires c < |s.clients| && Quiet(s.clients[c]) && s.clients[c].peer.harbor == 0
    requires instance != ""
    ensures IsRun(s, es)
    ensures RegisteredAs(After(s, es), c, topic, tag, s.harborCount + 1)
    ensures RegistersOnly(s, After(s, es), c, s.harborCount + 1) && !After(s, es).clients[c].peer.stopSubscribe
    ensures After(s, es).log.granted == s.log.granted + {GrantOf(c, topic, tag)}
  {
    hide Text.Trim, Subscribes, Apply, Enabled;
    var h := s.harborCount + 1;
    var m := RequestOf(s.clients[c].node, "Mq", "*", "Mq", ON_REGISTER, RegisterRequest(instance, 0, topic, tag));
    var x;
    es, x := RegistrationTravels(s, c, m);
    var t := After(s, es);
    var fs := AnswerTravels(t, c, x, ReplyMqMsg(h, m.seq_, RegisterReply(h)));
    RunAppend(s, es, fs);
    es := es + fs;
  }

  /** From the start of the system, two clients can register, the second one with any topic and tag. */
  lemma TwoHomes(topic: string, tag: string) returns (es: seq<Event>)
    ensures IsRun(INITIAL, es)
    ensures var s := After(INITIAL, es);
      && Home(s, 0) && RegisteredAs(s, 1, topic, tag, 2) && !s.clients[1].peer.stopSubscribe && s.queues == map[]
      && s.log.granted == {GrantOf(0, "", ""), GrantOf(1, topic, tag)}
  {
    hide Text.Trim, Handle, Decide;
    RunOne(Apply(INITIAL, Connect), Connect);
    RunCons(INITIAL, Connect, [Connect]);
    es := [Connect] + [Connect];
    var s := After(INITIAL, es);
    assert s.clients == [NEW_CLIENT, NEW_CLIENT];
    hide Apply, Enabled;
    var fs := RegistrationCompletes(s, 0, "first", "", "");
    RunAppend(INITIAL, es, fs);
    es := es + fs;
    var gs := RegistrationCompletes(After(s, fs), 1, "second", topic, tag);
    RunAppend(INITIAL, es, gs);
    es := es + gs;
  }

  /** Client 1 subscribes to all tags of a topic, and client 0 makes the request `m` on it. */
  predicate Prepared(s: State, m: MqMsg) {
    && Home(s, 0) && Home(s, 1) && m == RequestOf(s.clients[0].node, m.topic, m.tag, m.class_, m.method_, m.body)
    && Subscribes(s.clients[1].peer, m.topic, m.tag) && !s.clients[1].peer.stopSubscribe && s.queues == map[]
  }

  lemma Prepare(topic: string, tag: string, class_: string, method_: string, body: Body)
    returns (es: seq<Event>, m: MqMsg)
    requires Text.Trim(topic, Text.BLANKS) == topic
    ensures IsRun(INITIAL, es) && Prepared(After(INITIAL, es), m)
    ensures m.topic == topic && m.tag == tag && m.class_ == class_ && m.method_ == method_ && m.body == body
  {
    es := TwoHomes(topic, "*");
    assert Text.Trim("*", Text.BLANKS) == "*";
    hide Text.Trim, IsRun, After;
    m := RequestOf(After(INITIAL, es).clients[0].node, topic, tag, class_, method_, body);
  }

  /** So calls do complete: any request on any topic, with any result. */
  lemma CallsComplete(topic: string, tag: string, class_: string, method_: string, body: Body, result: Body)
    returns (s: State, m: MqMsg)
    requires Text.Trim(topic, Text.BLANKS) == topic && topic != "Mq" && tag != "*"
    ensures Reachable(s) && AnswerReturned(s, 0, m, result)
    ensures m.topic == topic && m.tag == tag && m.class_ == class_ && m.method_ == method_ && m.body == body
    ensures exists d :: Execution(d, m, result) in s.log.executed
  {
    hide Text.Trim, Subscribes, Enabled, Apply;
    var es;
    es, m := Prepare(topic, tag, class_, method_, body);
    CallCompletes(After(INITIAL, es), 0, 1, m, result);
    var fs :| IsRun(After(INITIAL, es), fs) && AnswerReturned(After(After(INITIAL, es), fs), 0, m, result);
    RunAppend(INITIAL, es, fs);
    s := After(INITIAL, es + fs);
    assert Reachable(s);
    CallCorrelation(s, 0, m.seq_);
  }

  /** And writes behind the reply to a stop do happen. */
  lemma LateWrites(topic: string, tag: string, body: Body) returns (s: State, e: Event, m: MqMsg)
    requires Text.Trim(topic, Text.BLANKS) == topic && topic != "Mq" && tag != "*"
    ensures Reachable(s) && Unsubscribed(s, 1) && Enabled(s, e) && WritesTo(s, e, KeyOf(topic, tag), 1)
    ensures |s.clients[1].down| == 1 && s.clients[1].down[0].body == NilStruct
    ensures 1 < |Apply(s, e).clients| && Apply(s, e).clients[1].down == s.clients[1].down + [m]
  {
    hide Text.Trim, Subscribes, Enabled, Apply;
    var es, fs;
    es, m := Prepare(topic, tag, "", "", body);
    fs, e := WriteAfterStop(After(INITIAL, es), 0, 1, m);
    RunAppend(INITIAL, es, fs);
    s := After(INITIAL, es + fs);
    assert Reachable(s);
  }

  // ---------- The client object ----------

  /** The part of the client that Call and the reading goroutine share. */
  class CallClient {
    var harbor: nat
    var pendingSeq: nat
    var calling: map<nat, MqMsg>
    var pendingMap: set<nat>
    var slots: map<nat, MqMsg>
    var returned: map<nat, MqMsg>
    var executing: seq<MqMsg>

    ghost function View(): Node
      reads this
    {
      Node(harbor, pendingSeq, calling, pendingMap, slots, returned, executing)
    }

    constructor ()
      ensures View() == NEW_CLIENT.node
    {
      harbor, pendingSeq, calling, pendingMap := 0, 0, map[], {};
      slots, returned, executing := map[], map[], [];
    }

    /** Call, up to the hand-over of the request to the producer. */
    method Call(topic: string, tag: string, class_: string, method_: string, body: Body) returns (m: MqMsg)
      modifies this
      ensures m == RequestOf(old(View()), topic, tag, class_, method_, body)
      ensures View() == BeginCall(old(View()), m)
    {
      pendingSeq := pendingSeq + 1;
      m := MqMsg(TypeCall, harbor, topic, tag, class_, method_, pendingSeq, body);
      calling := calling[pendingSeq := m];
      pendingMap := pendingMap + {pendingSeq};
    }

    /** Finds and removes the pending entry of a response. */
    method GetPendingMsg(m: MqMsg) returns (found: bool)
      modifies `pendingMap
      ensures found <==> m.seq_ in old(pendingMap)
      ensures pendingMap == old(pendingMap) - {m.seq_}
    {
      found := m.seq_ in pendingMap;
      pendingMap := pendingMap - {m.seq_};
    }

    method Receive(m: MqMsg)
      modifies this
      ensures View() == DoMqMsg(old(View()), m)
    {
      if m.topic == "Mq" || m.tag == "*" {
        return;
      }
      if m.typ == TypeRespond {
        var found := GetPendingMsg(m);
        if found {
          slots := slots[m.seq_ := m];
        } else {
          assert pendingMap == old(pendingMap);
        }
      } else {
        executing := executing + [m];
      }
    }

    /** The rest of Call, and for a registration the assignment of the harbor. */
    method Return(q: nat) returns (body: Body)
      requires q in slots && q in calling
      modifies this
      ensures body == old(slots)[q].body
      ensures View() == EndCall(old(View()), q)
    {
      var m := slots[q];
      body := m.body;
      if IsRegistration(calling[q]) && body.RegisterReply? {
        harbor := body.harbor;
      }
      slots, calling, returned := slots - {q}, calling - {q}, returned[q := m];
    }
  }
}
