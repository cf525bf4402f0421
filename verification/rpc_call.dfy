/**
  Calls on an actor (skynet_go/rpc/rpcE/server.go, and with the same message protocol rpcU and
  rpcD): a caller takes a `Msg` from a pool, sends it to the workers, and waits on the one-slot
  channel that belongs to the `Msg`; the worker fills in the reply and sends the `Msg` back, or
  recycles it when nobody waits. `Msg.Init` clears `Err` but not `Reply`.

  One event is one step of one goroutine between two communications. A handler is abstract: it
  returns, fails or panics, and an answer records the invocation that it was computed for.
 */
module RpcCall {
  import opened Options

  /** A pooled `*Msg`; objects are numbered in the order of their allocation. */
  type Object = nat
  /** One invocation of Send, SendReq or Call. */
  type Id = nat

  const CACHE_NUMBER: nat := 1000

  datatype Kind = Send | SendReq | Call

  datatype Answer = Answer(of: Id)

  /** What a handler does: FailsEncoding is a failure of `EncodeBody` after the handler returned. */
  datatype Outcome = Returns | Fails | FailsEncoding | Panics

  /** The fields of `rpc.Msg`; `request` stands for Method, Args and Encode of that invocation. */
  datatype Msg = Msg(kind: Kind, request: Id, err: Option<Answer>, reply: Option<Answer>, pending: seq<Object>)

  datatype Result = Failed(err: Answer) | Replied(reply: Answer) | BadReply

  datatype Caller =
    | Holding(o: Object)                    // has filled in the Msg
    | Sent                                  // Send and SendReq keep nothing
    | Waiting(o: Object)
    | Returning(o: Object)
    | Putting(o: Object, result: Result)
    | Finished(result: Result)
  {
    predicate Holds(x: Object) { (Holding? || Returning? || Putting?) && o == x }
  }

  datatype Worker = Idle | Working(o: Object) | Done(o: Object)

  datatype State = State(
    objects: seq<Msg>,
    pool: multiset<Object>,
    cache: seq<Object>,
    callers: map<Id, Caller>,
    workers: seq<Worker>,
    outcomes: map<Id, Outcome>,             // history: what the handler did for an invocation
    carrier: map<Id, Object>,               // history: the message that an invocation took
    collected: set<Object>)                 // history: the messages that the pool has dropped

  datatype Event =
    | Get(c: Id, kind: Kind, reuse: Option<Object>)
    | SendOnCache(c: Id)
    | Receive(w: nat)
    | DoMsg(w: nat, outcome: Outcome)
    | Deliver(w: nat)
    | Wake(c: Id)
    | Return(c: Id)
    | Put(c: Id)
    | Collect(o: Object)                    // the pool drops an object

  function Initial(workers: nat): State {
    State([], multiset{}, [], map[], seq(workers, _ => Idle), map[], map[], {})
  }

  /** `msg.Init()` followed by the assignments of Send, SendReq or Call. */
  function Filled(m: Msg, c: Id, kind: Kind): Msg {
    m.(kind := kind, request := c, err := None)
  }

  /** What `RPC_DoMsg` leaves in the message. Send ignores the handler's results, and a panic is
      recovered before anything is stored. */
  function Executed(m: Msg, outcome: Outcome): Msg {
    if m.kind == Send then m else
    match outcome
    case Returns => m.(reply := Some(Answer(m.request)), err := None)
    case Fails => m.(err := Some(Answer(m.request)))
    case FailsEncoding => m.(reply := Some(Answer(m.request)), err := Some(Answer(m.request)))
    case Panics => m
  }

  /** What Call returns after it has been woken up. */
  function ResultOf(m: Msg): Result {
    if m.err.Some? then Failed(m.err.value)
    else if m.reply.Some? then Replied(m.reply.value)
    else BadReply
  }

  predicate Enabled(s: State, e: Event) {
    match e
    case Get(c, _, reuse) => c !in s.callers && (reuse.Some? ==> reuse.value in s.pool && reuse.value < |s.objects|)
    case SendOnCache(c) =>
      c in s.callers && s.callers[c].Holding? && s.callers[c].o < |s.objects| && |s.cache| < CACHE_NUMBER
    case Receive(w) => w < |s.workers| && s.workers[w].Idle? && s.cache != []
    case DoMsg(w, _) => w < |s.workers| && s.workers[w].Working? && s.workers[w].o < |s.objects|
    case Deliver(w) =>
      w < |s.workers| && s.workers[w].Done? && s.workers[w].o < |s.objects|
      && (s.objects[s.workers[w].o].kind == Call ==> s.objects[s.workers[w].o].pending == [])
    case Wake(c) =>
      c in s.callers && s.callers[c].Waiting? && s.callers[c].o < |s.objects|
      && s.objects[s.callers[c].o].pending != []
    case Return(c) => c in s.callers && s.callers[c].Returning? && s.callers[c].o < |s.objects|
    case Put(c) => c in s.callers && s.callers[c].Putting?
    case Collect(o) => o in s.pool
  }

  function Apply(s: State, e: Event): State
    requires Enabled(s, e)
  {
    match e
    case Get(c, kind, reuse) =>
      var o := if reuse.Some? then reuse.value else |s.objects|;
      var objects := if reuse.Some? then s.objects else s.objects + [Msg(Send, 0, None, None, [])];
      s.(objects := objects[o := Filled(objects[o], c, kind)],
         pool := if reuse.Some? then s.pool - multiset{o} else s.pool,
         callers := s.callers[c := Holding(o)],
         carrier := s.carrier[c := o])
    case SendOnCache(c) =>
      var o := s.callers[c].o;
      s.(cache := s.cache + [o],
         callers := s.callers[c := if s.objects[o].kind == Call then Waiting(o) else Sent])
    case Receive(w) => s.(workers := s.workers[w := Working(s.cache[0])], cache := s.cache[1..])
    case DoMsg(w, outcome) =>
      var o := s.workers[w].o;
      s.(workers := s.workers[w := Done(o)],
         objects := s.objects[o := Executed(s.objects[o], outcome)],
         outcomes := s.outcomes[s.objects[o].request := outcome])
    case Deliver(w) =>
      var o := s.workers[w].o;
      var t := s.(workers := s.workers[w := Idle]);
      if s.objects[o].kind == Call
      then t.(objects := s.objects[o := s.objects[o].(pending := [o])])
      else t.(pool := s.pool + multiset{o})
    case Wake(c) =>
      var o := s.callers[c].o;
      s.(objects := s.objects[o := s.objects[o].(pending := s.objects[o].pending[1..])],
         callers := s.callers[c := Returning(o)])
    case Return(c) =>
      var o := s.callers[c].o;
      s.(callers := s.callers[c := Putting(o, ResultOf(s.objects[o]))])
    case Put(c) =>
      s.(pool := s.pool + multiset{s.callers[c].o}, callers := s.callers[c := Finished(s.callers[c].result)])
    case Collect(o) => s.(pool := s.pool - multiset{o}, collected := s.collected + {o})
  }

  predicate IsRun(s: State, es: seq<Event>)
    decreases |es|
  {
    es == [] || (Enabled(s, es[0]) && IsRun(Apply(s, es[0]), es[1..]))
  }

  function After(s: State, es: seq<Event>): State
    requires IsRun(s, es)
    decreases |es|
  {
    if es == [] then s else After(Apply(s, es[0]), es[1..])
  }

  ghost predicate Reachable(s: State) {
    exists n: nat, es :: IsRun(Initial(n), es) && After(Initial(n), es) == s
  }

  // ---------- The invariant ----------

  /** The one place where a message is. */
  datatype Place = InPool | WithCaller(c: Id) | InCache | WithWorker(w: nat) | InSlot | Collected
  {
    predicate UnderWay() { InCache? || WithWorker? || InSlot? }
  }

  predicate Unexecuted(s: State, p: Place) {
    || p.InCache?
    || (p.WithWorker? && p.w < |s.workers| && s.workers[p.w].Working?)
    || (p.WithCaller? && p.c in s.callers && s.callers[p.c].Holding?)
  }

  predicate Answered(s: State, p: Place) {
    || p.InSlot?
    || (p.WithWorker? && p.w < |s.workers| && s.workers[p.w].Done?)
    || (p.WithCaller? && p.c in s.callers && s.callers[p.c].Returning?)
  }

  /** The message of an executed Call: after a panic it has no error, and whatever reply it holds
      is not an answer to this request. */
  predicate Fits(m: Msg, outcome: Outcome) {
    match outcome
    case Returns => m.err == None && m.reply == Some(Answer(m.request))
    case Fails | FailsEncoding => m.err == Some(Answer(m.request))
    case Panics => m.err == None && (m.reply.Some? ==> m.reply.value.of != m.request)
  }

  predicate ResultFits(c: Id, outcome: Outcome, result: Result) {
    match outcome
    case Returns => result == Replied(Answer(c))
    case Fails | FailsEncoding => result == Failed(Answer(c))
    case Panics => result.BadReply? || (result.Replied? && result.reply.of != c)
  }

  /** Message `o` is where `at` says, and in no other container. */
  predicate Placed(s: State, at: seq<Place>, o: Object)
    requires o < |at| == |s.objects|
  {
    var p := at[o];
    && s.pool[o] == (if p == InPool then 1 else 0)
    && (o in s.cache <==> p == InCache)
    && (o in s.collected <==> p == Collected)
    && s.objects[o].pending == (if p == InSlot then [o] else [])
    && (p.WithWorker? ==> p.w < |s.workers| && !s.workers[p.w].Idle? && s.workers[p.w].o == o)
    && (p.WithCaller? ==> p.c in s.callers && s.callers[p.c].Holds(o))
  }

  /** A message under way belongs to the invocation named in it, which waits if it is a Call. */
  predicate Claimed(s: State, at: seq<Place>, o: Object)
    requires o < |at| == |s.objects|
  {
    var p, m := at[o], s.objects[o];
    && (p.UnderWay() || p.WithCaller? ==> m.request in s.carrier && s.carrier[m.request] == o)
    && (p.UnderWay() ==> m.request in s.callers && (m.kind == Call ==> s.callers[m.request] == Waiting(o)))
    && (p.InSlot? ==> m.kind == Call)
    && (p.WithCaller? ==> m.request == p.c && p.c in s.callers && (s.callers[p.c].Holding? || m.kind == Call))
  }

  predicate Truthful(s: State, at: seq<Place>, o: Object)
    requires o < |at| == |s.objects|
  {
    var p, m := at[o], s.objects[o];
    && (m.reply.Some? ==> m.reply.value.of in s.outcomes)
    && (Unexecuted(s, p) ==> m.request !in s.outcomes && m.err == None)
    && (Answered(s, p) && m.kind == Call ==> m.request in s.outcomes && Fits(m, s.outcomes[m.request]))
  }

  predicate WorkerOk(s: State, at: seq<Place>, w: nat)
    requires w < |s.workers|
  {
    !s.workers[w].Idle? ==> s.workers[w].o < |at| && at[s.workers[w].o] == WithWorker(w)
  }

  predicate CallerOk(s: State, at: seq<Place>, c: Id)
    requires c in s.callers && |at| == |s.objects|
  {
    var k := s.callers[c];
    && (k.Holding? || k.Returning? || k.Putting? ==> k.o < |at| && at[k.o] == WithCaller(c))
    && (k.Waiting? ==> k.o < |at| && at[k.o].UnderWay() && s.objects[k.o].request == c && s.objects[k.o].kind == Call)
    && (k.Putting? || k.Finished? ==> c in s.outcomes && ResultFits(c, s.outcomes[c], k.result))
  }

  predicate Distinct(q: seq<Object>) {
    forall i, j :: 0 <= i < j < |q| ==> q[i] != q[j]
  }

  /** Everything a container holds is a message placed there. */
  ghost predicate Containers(s: State, at: seq<Place>) {
    && |at| == |s.objects|
    && (forall o: Object :: o in s.pool ==> o < |at|)
    && (forall o: Object :: o in s.cache ==> o < |at|)
    && (forall o: Object :: o in s.collected ==> o < |at|)
    && Distinct(s.cache)
    && s.outcomes.Keys <= s.callers.Keys && s.carrier.Keys <= s.callers.Keys
    && (forall w: nat :: w < |s.workers| ==> WorkerOk(s, at, w))
    && (forall c :: c in s.callers ==> CallerOk(s, at, c))
  }

  ghost predicate Inv(s: State, at: seq<Place>) {
    && Containers(s, at)
    && forall o: Object :: o < |at| ==> Placed(s, at, o) && Claimed(s, at, o) && Truthful(s, at, o)
  }

  // ---------- Every event keeps the invariant ----------

  lemma GetReuseStep(s: State, at: seq<Place>, e: Event) returns (at': seq<Place>)
    requires Inv(s, at) && Enabled(s, e) && e.Get? && e.reuse.Some?
    ensures Inv(Apply(s, e), at')
  {
    var t := Apply(s, e);
    var o := e.reuse.value;
    assert Placed(s, at, o) && Truthful(s, at, o);
    at' := at[o := WithCaller(e.c)];
    forall x: Object | x < |at'|
      ensures Placed(t, at', x) && Claimed(t, at', x) && Truthful(t, at', x)
    {
      assert Placed(s, at, x) && Claimed(s, at, x) && Truthful(s, at, x);
    }
    forall w: nat | w < |t.workers| ensures WorkerOk(t, at', w) {
      assert WorkerOk(s, at, w);
    }
    forall c | c in t.callers ensures CallerOk(t, at', c) {
      assert c != e.c ==> CallerOk(s, at, c);
    }
  }

  lemma GetNewStep(s: State, at: seq<Place>, e: Event) returns (at': seq<Place>)
    requires Inv(s, at) && Enabled(s, e) && e.Get? && e.reuse.None?
    ensures Inv(Apply(s, e), at')
  {
    var t := Apply(s, e);
    at' := at + [WithCaller(e.c)];
    assert |t.objects| == |at'| && forall x: Object :: x < |at| ==> t.objects[x] == s.objects[x];
    forall x: Object | x < |at'|
      ensures Placed(t, at', x) && Claimed(t, at', x) && Truthful(t, at', x)
    {
      if x < |at| {
        assert Placed(s, at, x) && Claimed(s, at, x) && Truthful(s, at, x);
      }
    }
    forall w: nat | w < |t.workers| ensures WorkerOk(t, at', w) {
      assert WorkerOk(s, at, w);
    }
    forall c | c in t.callers ensures CallerOk(t, at', c) {
      assert c != e.c ==> CallerOk(s, at, c);
    }
  }

  /** Every message has its place afterwards. */
  lemma SendMoves(s: State, at: seq<Place>, e: Event, at': seq<Place>, x: Object)
    requires Inv(s, at) && Enabled(s, e) && e.SendOnCache? && s.callers[e.c].o < |at|
    requires at' == at[s.callers[e.c].o := InCache] && x < |at'|
    ensures |Apply(s, e).objects| == |at'|
    ensures Placed(Apply(s, e), at', x) && Claimed(Apply(s, e), at', x) && Truthful(Apply(s, e), at', x)
  {
    assert CallerOk(s, at, e.c);
    hide CallerOk;
    var o := s.callers[e.c].o;
    assert Placed(s, at, o) && Claimed(s, at, o) && Truthful(s, at, o);
    assert Placed(s, at, x) && Claimed(s, at, x) && Truthful(s, at, x);
  }

  lemma SendStep(s: State, at: seq<Place>, e: Event) returns (at': seq<Place>)
    requires Inv(s, at) && Enabled(s, e) && e.SendOnCache?
    ensures Inv(Apply(s, e), at')
  {
    var t := Apply(s, e);
    assert CallerOk(s, at, e.c);
    var o := s.callers[e.c].o;
    assert Placed(s, at, o) && Claimed(s, at, o) && Truthful(s, at, o);
    at' := at[o := InCache];
    hide Placed, Claimed, Truthful;
    forall x: Object | x < |at'|
      ensures Placed(t, at', x) && Claimed(t, at', x) && Truthful(t, at', x)
    {
      SendMoves(s, at, e, at', x);
    }
    forall w: nat | w < |t.workers| ensures WorkerOk(t, at', w) {
      assert WorkerOk(s, at, w);
    }
    forall c | c in t.callers ensures CallerOk(t, at', c) {
      assert CallerOk(s, at, c);
    }
  }

  /** Every message has its place afterwards. */
  lemma ReceiveMoves(s: State, at: seq<Place>, e: Event, at': seq<Place>, x: Object)
    requires Inv(s, at) && Enabled(s, e) && e.Receive? && s.cache != [] && s.cache[0] < |at|
    requires at' == at[s.cache[0] := WithWorker(e.w)] && x < |at'|
    ensures |Apply(s, e).objects| == |at'|
    ensures Placed(Apply(s, e), at', x) && Claimed(Apply(s, e), at', x) && Truthful(Apply(s, e), at', x)
  {
    hide CallerOk;
    var o := s.cache[0];
    assert o in s.cache && s.cache == [o] + s.cache[1..];
    assert forall y :: y in s.cache[1..] ==> y in s.cache;
    assert Placed(s, at, o) && Claimed(s, at, o) && Truthful(s, at, o);
    assert Placed(s, at, x) && Claimed(s, at, x) && Truthful(s, at, x);
  }

  lemma ReceiveStep(s: State, at: seq<Place>, e: Event) returns (at': seq<Place>)
    requires Inv(s, at) && Enabled(s, e) && e.Receive?
    ensures Inv(Apply(s, e), at')
  {
    var t := Apply(s, e);
    var o := s.cache[0];
    assert o in s.cache && s.cache == [o] + s.cache[1..];
    assert forall x :: x in t.cache ==> x in s.cache;
    assert Placed(s, at, o) && Claimed(s, at, o) && Truthful(s, at, o);
    at' := at[o := WithWorker(e.w)];
    hide Placed, Claimed, Truthful;
    forall x: Object | x < |at'|
      ensures Placed(t, at', x) && Claimed(t, at', x) && Truthful(t, at', x)
    {
      ReceiveMoves(s, at, e, at', x);
    }
    forall w: nat | w < |t.workers| ensures WorkerOk(t, at', w) {
      assert WorkerOk(s, at, w);
    }
    forall c | c in t.callers ensures CallerOk(t, at', c) {
      assert CallerOk(s, at, c);
    }
  }

  /** Every message has its place afterwards. */
  lemma DoMsgMoves(s: State, at: seq<Place>, e: Event, at': seq<Place>, x: Object)
    requires Inv(s, at) && Enabled(s, e) && e.DoMsg?
    requires at' == at && x < |at'|
    ensures |Apply(s, e).objects| == |at'|
    ensures Placed(Apply(s, e), at', x) && Claimed(Apply(s, e), at', x) && Truthful(Apply(s, e), at', x)
  {
    hide CallerOk;
    assert WorkerOk(s, at, e.w);
    var o := s.workers[e.w].o;
    assert Placed(s, at, o) && Claimed(s, at, o) && Truthful(s, at, o);
    assert Placed(s, at, x) && Claimed(s, at, x) && Truthful(s, at, x);
  }

  lemma DoMsgStep(s: State, at: seq<Place>, e: Event) returns (at': seq<Place>)
    requires Inv(s, at) && Enabled(s, e) && e.DoMsg?
    ensures Inv(Apply(s, e), at')
  {
    var t := Apply(s, e);
    assert WorkerOk(s, at, e.w);
    var o := s.workers[e.w].o;
    assert Placed(s, at, o) && Claimed(s, at, o) && Truthful(s, at, o);
    at' := at;
    hide Placed, Claimed, Truthful;
    forall x: Object | x < |at'|
      ensures Placed(t, at', x) && Claimed(t, at', x) && Truthful(t, at', x)
    {
      DoMsgMoves(s, at, e, at', x);
    }
    forall w: nat | w < |t.workers| ensures WorkerOk(t, at', w) {
      assert WorkerOk(s, at, w);
    }
    forall c | c in t.callers ensures CallerOk(t, at', c) {
      assert CallerOk(s, at, c);
    }
  }

  /** Every message has its place afterwards. */
  lemma DeliverMoves(s: State, at: seq<Place>, e: Event, at': seq<Place>, x: Object)
    requires Inv(s, at) && Enabled(s, e) && e.Deliver? && s.workers[e.w].o < |at|
    requires var o := s.workers[e.w].o;
      at' == at[o := if s.objects[o].kind == Call then InSlot else InPool] && x < |at'|
    ensures |Apply(s, e).objects| == |at'|
    ensures Placed(Apply(s, e), at', x) && Claimed(Apply(s, e), at', x) && Truthful(Apply(s, e), at', x)
  {
    hide CallerOk;
    assert WorkerOk(s, at, e.w);
    var o := s.workers[e.w].o;
    assert Placed(s, at, o) && Claimed(s, at, o) && Truthful(s, at, o);
    assert Placed(s, at, x) && Claimed(s, at, x) && Truthful(s, at, x);
  }

  lemma DeliverStep(s: State, at: seq<Place>, e: Event) returns (at': seq<Place>)
    requires Inv(s, at) && Enabled(s, e) && e.Deliver?
    ensures Inv(Apply(s, e), at')
  {
    var t := Apply(s, e);
    assert WorkerOk(s, at, e.w);
    var o := s.workers[e.w].o;
    assert Placed(s, at, o) && Claimed(s, at, o) && Truthful(s, at, o);
    at' := at[o := if s.objects[o].kind == Call then InSlot else InPool];
    hide Placed, Claimed, Truthful;
    forall x: Object | x < |at'|
      ensures Placed(t, at', x) && Claimed(t, at', x) && Truthful(t, at', x)
    {
      DeliverMoves(s, at, e, at', x);
    }
    forall w: nat | w < |t.workers| ensures WorkerOk(t, at', w) {
      assert WorkerOk(s, at, w);
    }
    forall c | c in t.callers ensures CallerOk(t, at', c) {
      assert CallerOk(s, at, c);
    }
  }

  lemma WakeStep(s: State, at: seq<Place>, e: Event) returns (at': seq<Place>)
    requires Inv(s, at) && Enabled(s, e) && e.Wake?
    ensures Inv(Apply(s, e), at')
  {
    var t := Apply(s, e);
    assert CallerOk(s, at, e.c);
    var o := s.callers[e.c].o;
    assert Placed(s, at, o) && Claimed(s, at, o) && Truthful(s, at, o);
    at' := at[o := WithCaller(e.c)];
    forall x: Object | x < |at'|
      ensures Placed(t, at', x) && Claimed(t, at', x) && Truthful(t, at', x)
    {
      assert Placed(s, at, x) && Claimed(s, at, x) && Truthful(s, at, x);
    }
    forall w: nat | w < |t.workers| ensures WorkerOk(t, at', w) {
      assert WorkerOk(s, at, w);
    }
    forall c | c in t.callers ensures CallerOk(t, at', c) {
      assert CallerOk(s, at, c);
    }
  }

  lemma ReturnStep(s: State, at: seq<Place>, e: Event) returns (at': seq<Place>)
    requires Inv(s, at) && Enabled(s, e) && e.Return?
    ensures Inv(Apply(s, e), at')
  {
    var t := Apply(s, e);
    assert CallerOk(s, at, e.c);
    var o := s.callers[e.c].o;
    assert Placed(s, at, o) && Claimed(s, at, o) && Truthful(s, at, o);
    at' := at;
    forall x: Object | x < |at'|
      ensures Placed(t, at', x) && Claimed(t, at', x) && Truthful(t, at', x)
    {
      assert Placed(s, at, x) && Claimed(s, at, x) && Truthful(s, at, x);
    }
    forall w: nat | w < |t.workers| ensures WorkerOk(t, at', w) {
      assert WorkerOk(s, at, w);
    }
    forall c | c in t.callers ensures CallerOk(t, at', c) {
      assert CallerOk(s, at, c);
    }
  }

  lemma PutStep(s: State, at: seq<Place>, e: Event) returns (at': seq<Place>)
    requires Inv(s, at) && Enabled(s, e) && e.Put?
    ensures Inv(Apply(s, e), at')
  {
    var t := Apply(s, e);
    assert CallerOk(s, at, e.c);
    var o := s.callers[e.c].o;
    assert Placed(s, at, o) && Claimed(s, at, o) && Truthful(s, at, o);
    at' := at[o := InPool];
    forall x: Object | x < |at'|
      ensures Placed(t, at', x) && Claimed(t, at', x) && Truthful(t, at', x)
    {
      assert Placed(s, at, x) && Claimed(s, at, x) && Truthful(s, at, x);
    }
    forall w: nat | w < |t.workers| ensures WorkerOk(t, at', w) {
      assert WorkerOk(s, at, w);
    }
    forall c | c in t.callers ensures CallerOk(t, at', c) {
      assert CallerOk(s, at, c);
    }
  }

  lemma CollectStep(s: State, at: seq<Place>, e: Event) returns (at': seq<Place>)
    requires Inv(s, at) && Enabled(s, e) && e.Collect?
    ensures Inv(Apply(s, e), at')
  {
    var t := Apply(s, e);
    assert Placed(s, at, e.o);
    at' := at[e.o := Collected];
    forall x: Object | x < |at'|
      ensures Placed(t, at', x) && Claimed(t, at', x) && Truthful(t, at', x)
    {
      assert Placed(s, at, x) && Claimed(s, at, x) && Truthful(s, at, x);
    }
    forall w: nat | w < |t.workers| ensures WorkerOk(t, at', w) {
      assert WorkerOk(s, at, w);
    }
    forall c | c in t.callers ensures CallerOk(t, at', c) {
      assert CallerOk(s, at, c);
    }
  }

  lemma InvStep(s: State, at: seq<Place>, e: Event) returns (at': seq<Place>)
    requires Inv(s, at) && Enabled(s, e)
    ensures Inv(Apply(s, e), at')
  {
    match e
    case Get(_, _, reuse) =>
      if reuse.Some? {
        at' := GetReuseStep(s, at, e);
      } else {
        at' := GetNewStep(s, at, e);
      }
    case SendOnCache(_) => at' := SendStep(s, at, e);
    case Receive(_) => at' := ReceiveStep(s, at, e);
    case DoMsg(_, _) => at' := DoMsgStep(s, at, e);
    case Deliver(_) => at' := DeliverStep(s, at, e);
    case Wake(_) => at' := WakeStep(s, at, e);
    case Return(_) => at' := ReturnStep(s, at, e);
    case Put(_) => at' := PutStep(s, at, e);
    case Collect(_) => at' := CollectStep(s, at, e);
  }

  lemma {:induction false} InvRun(s: State, at: seq<Place>, es: seq<Event>) returns (at': seq<Place>)
    requires Inv(s, at) && IsRun(s, es)
    ensures Inv(After(s, es), at')
    decreases |es|
  {
    if es == [] {
      at' := at;
    } else {
      var mid := InvStep(s, at, es[0]);
      at' := InvRun(Apply(s, es[0]), mid, es[1..]);
    }
  }

  lemma ReachableInv(s: State) returns (at: seq<Place>)
    requires Reachable(s)
    ensures Inv(s, at)
  {
    var n: nat, es :| IsRun(Initial(n), es) && After(Initial(n), es) == s;
    at := InvRun(Initial(n), [], es);
  }

  // ---------- Results ----------

  /** A message is never in two containers, and is never twice in one. A pooled message has an
      empty reply slot, and a reply slot only ever holds its own message. */
  lemma ExclusiveOwnership(s: State, o: Object)
    requires Reachable(s)
    ensures s.pool[o] <= 1 && Distinct(s.cache)
    ensures o in s.pool ==> o < |s.objects| && s.objects[o].pending == [] && o !in s.cache
    ensures o in s.pool || o in s.cache ==>
      && (forall w :: 0 <= w < |s.workers| && !s.workers[w].Idle? ==> s.workers[w].o != o)
      && (forall c :: c in s.callers ==> !s.callers[c].Holds(o))
    ensures forall v, w :: 0 <= v < w < |s.workers| && !s.workers[v].Idle? && !s.workers[w].Idle? ==>
      s.workers[v].o != s.workers[w].o
    ensures forall c, d :: c in s.callers && d in s.callers && s.callers[c].Holds(o) && s.callers[d].Holds(o) ==> c == d
    ensures forall c, w :: c in s.callers && s.callers[c].Holds(o) && 0 <= w < |s.workers| && !s.workers[w].Idle? ==>
      s.workers[w].o != o
    ensures o < |s.objects| && s.objects[o].pending != [] ==>
      && s.objects[o].pending == [o] && o !in s.pool && o !in s.cache
      && (forall w :: 0 <= w < |s.workers| && !s.workers[w].Idle? ==> s.workers[w].o != o)
      && (forall c :: c in s.callers ==> !s.callers[c].Holds(o))
  {
    var at := ReachableInv(s);
    if o < |at| {
      assert Placed(s, at, o);
    } else {
      assert o !in s.pool;
    }
    forall w: nat | w < |s.workers| && !s.workers[w].Idle?
      ensures s.workers[w].o < |at| && at[s.workers[w].o] == WithWorker(w)
    {
      assert WorkerOk(s, at, w);
    }
    forall c | c in s.callers && s.callers[c].Holds(o)
      ensures o < |at| && at[o] == WithCaller(c)
    {
      assert CallerOk(s, at, c);
    }
  }

  ghost predicate WithSomeCaller(s: State, o: Object) {
    exists c :: c in s.callers && s.callers[c].Holds(o)
  }

  ghost predicate WithSomeWorker(s: State, o: Object) {
    exists w :: 0 <= w < |s.workers| && !s.workers[w].Idle? && s.workers[w].o == o
  }

  function One(b: bool): nat {
    if b then 1 else 0
  }

  /** Every message ever made is in exactly one place: the pool, a caller's hands, the queue, a
      worker's hands, its own reply slot, or gone because the pool dropped it. */
  lemma ExactlyOnePlace(s: State, o: Object)
    requires Reachable(s) && o < |s.objects|
    ensures s.pool[o] + One(WithSomeCaller(s, o)) + One(o in s.cache) + One(WithSomeWorker(s, o))
      + One(s.objects[o].pending != []) + One(o in s.collected) == 1
  {
    var at := ReachableInv(s);
    assert Placed(s, at, o);
    if WithSomeCaller(s, o) {
      var c :| c in s.callers && s.callers[c].Holds(o);
      assert CallerOk(s, at, c);
    }
    if WithSomeWorker(s, o) {
      var w: nat :| w < |s.workers| && !s.workers[w].Idle? && s.workers[w].o == o;
      assert WorkerOk(s, at, w);
    }
  }

  /** A worker never blocks on the reply channel of the message that it has handled. */
  lemma ReplyNeverBlocks(s: State, w: nat)
    requires Reachable(s) && w < |s.workers| && s.workers[w].Done?
    ensures Enabled(s, Deliver(w))
  {
    var at := ReachableInv(s);
    assert WorkerOk(s, at, w);
    assert Placed(s, at, s.workers[w].o);
  }

  /** What wakes a caller is its own message, still carrying its own request. */
  lemma WokenByOwnMessage(s: State, c: Id)
    requires Reachable(s) && c in s.callers && s.callers[c].Waiting?
    ensures s.callers[c].o < |s.objects|
    ensures var m := s.objects[s.callers[c].o];
      m.request == c && (m.pending == [] || m.pending == [s.callers[c].o])
  {
    var at := ReachableInv(s);
    assert CallerOk(s, at, c);
    assert Placed(s, at, s.callers[c].o);
  }

  predicate OwnAnswer(c: Id, result: Result) {
    result == Replied(Answer(c)) || result == Failed(Answer(c))
  }

  /** A Call returns the answer to its own request if and only if its handler did not panic. */
  lemma OwnAnswerIffNoPanic(s: State, c: Id)
    requires Reachable(s) && c in s.callers && s.callers[c].Finished?
    ensures c in s.outcomes
    ensures OwnAnswer(c, s.callers[c].result) <==> s.outcomes[c] != Panics
  {
    var at := ReachableInv(s);
    assert CallerOk(s, at, c);
  }

  /** In detail: what each outcome of the handler makes of the Call. A panic gives the caller the
      reply of another call, or none. */
  lemma ResultByOutcome(s: State, c: Id)
    requires Reachable(s) && c in s.callers && s.callers[c].Finished?
    ensures c in s.outcomes
    ensures s.outcomes[c] == Returns ==> s.callers[c].result == Replied(Answer(c))
    ensures s.outcomes[c] == Fails || s.outcomes[c] == FailsEncoding ==> s.callers[c].result == Failed(Answer(c))
    ensures s.outcomes[c] == Panics ==>
      s.callers[c].result == BadReply || exists d :: d != c && s.callers[c].result == Replied(Answer(d))
  {
    var at := ReachableInv(s);
    assert CallerOk(s, at, c);
    if s.callers[c].result.Replied? {
      assert s.callers[c].result == Replied(Answer(s.callers[c].result.reply.of));
    }
  }

  /** What a handler leaves in the message. Of a Send nothing is kept; a reply that could not be
      encoded is kept beside the error, so a later panic can return it; a panic changes nothing. */
  lemma LeftInMessage(s: State, w: nat, outcome: Outcome)
    requires Enabled(s, DoMsg(w, outcome))
    ensures var o := s.workers[w].o; var m, n := s.objects[o], Apply(s, DoMsg(w, outcome)).objects[o];
      && (m.kind == Send || outcome == Panics ==> n == m)
      && (m.kind != Send && outcome == Fails ==> n.reply == m.reply)
      && (m.kind != Send && (outcome == Returns || outcome == FailsEncoding) ==> n.reply == Some(Answer(m.request)))
      && (m.kind != Send && (outcome == Fails || outcome == FailsEncoding) ==> n.err == Some(Answer(m.request)))
      && (m.kind != Send && outcome == Returns ==> n.err == None)
      && n.kind == m.kind && n.request == m.request && n.pending == m.pending
  {
  }

  // ---------- The queue's order ----------

  function SentBy(s: State, e: Event): seq<Object>
    requires Enabled(s, e)
  {
    if e.SendOnCache? then [s.callers[e.c].o] else []
  }

  /** The message that the worker works on after its receive. */
  function BegunBy(s: State, e: Event): seq<Object>
    requires Enabled(s, e)
  {
    if !e.Receive? then [] else
    match Apply(s, e).workers[e.w]
    case Working(o) => [o]
    case _ => []
  }

  function SentIn(s: State, es: seq<Event>): seq<Object>
    requires IsRun(s, es)
    decreases |es|
  {
    if es == [] then [] else SentBy(s, es[0]) + SentIn(Apply(s, es[0]), es[1..])
  }

  function BegunIn(s: State, es: seq<Event>): seq<Object>
    requires IsRun(s, es)
    decreases |es|
  {
    if es == [] then [] else BegunBy(s, es[0]) + BegunIn(Apply(s, es[0]), es[1..])
  }

  lemma QueueStep(s: State, e: Event)
    requires Enabled(s, e)
    ensures s.cache + SentBy(s, e) == BegunBy(s, e) + Apply(s, e).cache
  {
    if e.Receive? {
      assert s.cache == [s.cache[0]] + s.cache[1..];
    }
  }

  /** Over every run the workers begin with the messages in the order in which they were sent. */
  lemma {:induction false} FirstInFirstOut(s: State, es: seq<Event>)
    requires IsRun(s, es)
    ensures s.cache + SentIn(s, es) == BegunIn(s, es) + After(s, es).cache
    decreases |es|
  {
    if es == [] {
      assert s.cache + [] == [] + s.cache;
    } else {
      hide Enabled, Apply, SentBy, BegunBy;
      var t := Apply(s, es[0]);
      QueueStep(s, es[0]);
      FirstInFirstOut(t, es[1..]);
      Splice(s.cache, SentBy(s, es[0]), SentIn(t, es[1..]), BegunBy(s, es[0]), t.cache, BegunIn(t, es[1..]),
        After(s, es).cache);
    }
  }

  lemma Splice(a: seq<Object>, b: seq<Object>, c: seq<Object>, d: seq<Object>, m: seq<Object>, f: seq<Object>,
      g: seq<Object>)
    requires a + b == d + m && m + c == f + g
    ensures a + (b + c) == (d + f) + g
  {
    assert a + (b + c) == (a + b) + c;
    assert (d + m) + c == d + (m + c);
    assert d + (f + g) == (d + f) + g;
  }

  /** A message that nobody waits for is back in the pool as soon as it has been handled, and so is that
      of a Call once the caller is done with it; a sender waits only for a channel of a thousand. */
  lemma MessagesAreRecycled(s: State, w: nat, c: Id)
    requires Reachable(s)
    ensures w < |s.workers| && s.workers[w].Done? ==>
      Enabled(s, Deliver(w)) && s.workers[w].o < |s.objects|
      && (s.objects[s.workers[w].o].kind != Call ==> s.workers[w].o in Apply(s, Deliver(w)).pool)
    ensures c in s.callers && s.callers[c].Putting? ==> s.callers[c].o in Apply(s, Put(c)).pool
    ensures c in s.callers && s.callers[c].Holding? ==> (Enabled(s, SendOnCache(c)) <==> |s.cache| < 1000)
  {
    var at := ReachableInv(s);
    if w < |s.workers| && s.workers[w].Done? {
      ReplyNeverBlocks(s, w);
      assert WorkerOk(s, at, w);
    }
    if c in s.callers {
      assert CallerOk(s, at, c);
    }
  }

  lemma Extend(s: State, es: seq<Event>, e: Event) returns (fs: seq<Event>)
    requires IsRun(s, es) && Enabled(After(s, es), e)
    ensures fs == es + [e] && IsRun(s, fs) && After(s, fs) == Apply(After(s, es), e)
    decreases |es|
  {
    fs := es + [e];
    if es != [] {
      var gs := Extend(Apply(s, es[0]), es[1..], e);
      assert fs[1..] == gs;
    }
  }

  /** Only one worker and at most one message, which nobody uses. */
  predicate Quiet(s: State) {
    && s.workers == [Idle] && s.cache == []
    && ((s.objects == [] && s.pool == multiset{})
        || (|s.objects| == 1 && s.pool == multiset{0} && s.objects[0].pending == []))
  }

  function Recycled(s: State): Msg {
    if s.objects == [] then Msg(Send, 0, None, None, []) else s.objects[0]
  }

  lemma Ask(s: State, es: seq<Event>, c: Id) returns (fs: seq<Event>)
    requires IsRun(s, es) && Quiet(After(s, es)) && c !in After(s, es).callers
    ensures IsRun(s, fs)
    ensures var t, u := After(s, es), After(s, fs);
      && u.workers == [Idle] && u.cache == [0] && u.pool == multiset{}
      && u.objects == [Filled(Recycled(t), c, Call)]
      && u.callers == t.callers[c := Waiting(0)]
  {
    hide IsRun, After;
    fs := Extend(s, es, Get(c, Call, if After(s, es).objects == [] then None else Some(0)));
    fs := Extend(s, fs, SendOnCache(c));
  }

  /** Invocation `c` takes the message, and the worker handles it. */
  lemma FirstHalf(s: State, es: seq<Event>, c: Id, outcome: Outcome) returns (fs: seq<Event>)
    requires IsRun(s, es) && Quiet(After(s, es)) && c !in After(s, es).callers
    ensures IsRun(s, fs)
    ensures var t, u := After(s, es), After(s, fs);
      && u.workers == [Done(0)] && u.cache == [] && u.pool == multiset{}
      && u.objects == [Executed(Filled(Recycled(t), c, Call), outcome)]
      && u.callers == t.callers[c := Waiting(0)]
  {
    hide IsRun, After, Recycled, Quiet;
    fs := Ask(s, es, c);
    fs := Extend(s, fs, Receive(0));
    fs := Extend(s, fs, DoMsg(0, outcome));
  }

  /** The worker sends the message back, and the caller returns and recycles it. */
  lemma SecondHalf(s: State, es: seq<Event>, c: Id) returns (fs: seq<Event>)
    requires IsRun(s, es)
    requires var t := After(s, es);
      && t.workers == [Done(0)] && t.cache == [] && t.pool == multiset{} && |t.objects| == 1
      && t.objects[0].kind == Call && t.objects[0].pending == []
      && c in t.callers && t.callers[c] == Waiting(0)
    ensures IsRun(s, fs)
    ensures var t, u := After(s, es), After(s, fs);
      && Quiet(u) && u.objects == t.objects
      && u.callers == t.callers[c := Finished(ResultOf(t.objects[0]))]
  {
    hide IsRun, After;
    fs := Extend(s, es, Deliver(0));
    fs := Extend(s, fs, Wake(c));
    fs := Extend(s, fs, Return(c));
    fs := Extend(s, fs, Put(c));
  }

  /** Because `Init` keeps `Reply`, a Call whose handler panics can return, without an error, the
      reply that another Call received before on the same pooled message. */
  lemma PanicReturnsStaleReply() returns (s: State)
    ensures Reachable(s)
    ensures 1 in s.callers && s.callers[1] == Finished(Replied(Answer(0)))
  {
    var es := FirstHalf(Initial(1), [], 0, Returns);
    es := SecondHalf(Initial(1), es, 0);
    es := FirstHalf(Initial(1), es, 1, Panics);
    es := SecondHalf(Initial(1), es, 1);
    s := After(Initial(1), es);
  }

  // ---------- The message object ----------

  /** `rpc.Msg`, updated in place by the sender and by the worker that own it in turn. */
  class MsgObject {
    var typ: Kind
    var request: Id
    var err: Option<Answer>
    var reply: Option<Answer>
    var pending: seq<Object>

    function View(): Msg
      reads this
    {
      Msg(typ, request, err, reply, pending)
    }

    constructor ()
      ensures View() == Msg(Send, 0, None, None, [])
    {
      typ, request, err, reply, pending := Send, 0, None, None, [];
    }

    method Init()
      modifies this
      ensures View() == old(View()).(kind := Send, request := 0, err := None)
    {
      typ, request, err := Send, 0, None;
    }

    /** The part of Send, SendReq and Call before the message is counted and sent. */
    method Prepare(c: Id, kind: Kind)
      modifies this
      ensures View() == Filled(old(View()), c, kind)
    {
      Init();
      typ := kind;
      request := c;
    }

    /** `RPC_DoMsg`, up to the send on Pending or the return to the pool. */
    method DoMsg(outcome: Outcome)
      modifies this
      ensures View() == Executed(old(View()), outcome)
    {
      if typ != Send {
        if outcome == Fails {
          err := Some(Answer(request));
        } else if outcome == Returns || outcome == FailsEncoding {
          reply := Some(Answer(request));
          err := if outcome == Returns then None else Some(Answer(request));
        }
      }
    }
  }
}
