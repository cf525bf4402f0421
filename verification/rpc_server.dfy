/**
  The worker core of an actor (skynet_go/rpc/server.go): N goroutines receive from one bounded
  channel, `SendNumber` and `recvNumber` count messages, and `Stop(true)` must not return before
  the messages that were counted when it was called have been handled.

  One event of the model is one atomic action of one goroutine; in particular the four atomic
  loads of `isStopping` are four events, so every interleaving of them with sends, receives
  and `Stop` is a run of the model.
 */
module RpcServer {

  const CACHE_NUMBER: nat := 1000
  const COUNTER_RANGE: nat := 0x1_0000_0000

  /** One send; the model never issues the same number twice. */
  type Message = nat

  datatype RunState = Stopped | Started | Stopping

  /** Where a worker goroutine is. `polling` says that its `done` case has fired, so that it now
      waits on its timer instead. */
  datatype Worker =
    | Select(polling: bool)
    | Handling(m: Message, polling: bool)
    | Handled(m: Message, polling: bool)
    | LoadState(polling: bool)
    | LoadWait(polling: bool)
    | LoadRecv(polling: bool)
    | LoadSend(polling: bool, recv: nat)
    | Exited
  {
    predicate Busy() { Handling? || Handled? }
    predicate Loading() { LoadState? || LoadWait? || LoadRecv? || LoadSend? }
  }

  /** The next statement of the one `Stop` call that holds the server mutex. */
  datatype StopCall = NoStop | StoreWait(waitMsg: bool) | CancelContext | WaitWorkers

  /** The last five fields are history: no event reads them. */
  datatype State = State(
    run: RunState,
    waitMsg: bool,
    cancelled: bool,
    sendNumber: nat,
    recvNumber: nat,
    cache: seq<Message>,
    unqueued: set<Message>,     // counted by a sender that has not yet sent on the channel
    workers: seq<Worker>,
    stopCall: StopCall,
    leftover: nat,              // messages carried into the epoch by Start
    counted: set<Message>,      // counted in this epoch
    handled: set<Message>,      // handler returned in this epoch
    atStop: set<Message>,       // counted when the state became Stopping
    issued: set<Message>)       // all messages ever counted

  /** The 32-bit counters of the source wrap around; the model keeps the true counts and compares
      them the way the source does. */
  function Register(count: nat): nat { count % COUNTER_RANGE }

  datatype Event =
    | Start(isNewCache: bool, stranded: set<Message>)
    | StopCalled(wait: bool) | StopStores | StopCancels | StopReturns
    | AddRoutine
    | Count(m: Message) | Enqueue(m: Message)
    | Receive(i: nat) | Finish(i: nat) | Ack(i: nat) | Done(i: nat) | Tick(i: nat) | Load(i: nat)

  const INITIAL := State(Stopped, false, false, 0, 0, [], {}, [], NoStop, 0, {}, {}, {}, {})

  predicate AllExited(workers: seq<Worker>) { forall i :: 0 <= i < |workers| ==> workers[i].Exited? }

  predicate Enabled(s: State, e: Event) {
    match e
    case Start(isNew, stranded) => s.run == Stopped && stranded <= s.unqueued && (stranded != {} ==> isNew)
    case StopCalled(_) => s.run == Started
    case StopStores => s.stopCall.StoreWait?
    case StopCancels => s.stopCall.CancelContext?
    case StopReturns => s.stopCall.WaitWorkers? && AllExited(s.workers)
    case AddRoutine => s.run != Stopped
    case Count(m) => m !in s.issued
    case Enqueue(m) => m in s.unqueued && |s.cache| < CACHE_NUMBER
    case Receive(i) => i < |s.workers| && s.workers[i].Select? && s.cache != []
    case Finish(i) => i < |s.workers| && s.workers[i].Handling?
    case Ack(i) => i < |s.workers| && s.workers[i].Handled?
    case Done(i) => i < |s.workers| && s.workers[i] == Select(false) && s.cancelled
    case Tick(i) => i < |s.workers| && s.workers[i] == Select(true)
    case Load(i) => i < |s.workers| && s.workers[i].Loading()
  }

  /** One atomic load of `isStopping`: state, waitMsg, recvNumber, then SendNumber. */
  function AfterLoad(s: State, w: Worker): Worker
    requires w.Loading()
  {
    match w
    case LoadState(p) => if s.run == Stopping then LoadWait(p) else Select(p)
    case LoadWait(p) => if s.waitMsg then LoadRecv(p) else Exited
    case LoadRecv(p) => LoadSend(p, s.recvNumber)
    case LoadSend(p, r) => if Register(r) == Register(s.sendNumber) then Exited else Select(p)
  }

  function Move(s: State, i: nat, w: Worker): State
    requires i < |s.workers|
  {
    s.(workers := s.workers[i := w])
  }

  /** A new channel is empty, and senders already blocked on the old one are stranded there. */
  function AfterStart(s: State, isNewCache: bool, stranded: set<Message>): State {
    var cache := if isNewCache then [] else s.cache;
    var unqueued := s.unqueued - stranded;
    s.(run := Started, waitMsg := true, cancelled := false, sendNumber := 0, recvNumber := 0,
       cache := cache, unqueued := unqueued, workers := [Select(false)],
       leftover := |cache| + |unqueued|, counted := {}, handled := {}, atStop := {})
  }

  function Apply(s: State, e: Event): State
    requires Enabled(s, e)
  {
    match e
    case Start(isNew, stranded) => AfterStart(s, isNew, stranded)
    case StopCalled(wait) => s.(run := Stopping, stopCall := StoreWait(wait), atStop := s.counted)
    case StopStores => s.(waitMsg := s.stopCall.waitMsg, stopCall := CancelContext)
    case StopCancels => s.(cancelled := true, stopCall := WaitWorkers)
    case StopReturns => s.(run := Stopped, stopCall := NoStop)
    case AddRoutine => s.(workers := s.workers + [Select(false)])
    case Count(m) =>
      s.(sendNumber := s.sendNumber + 1, unqueued := s.unqueued + {m}, counted := s.counted + {m},
         issued := s.issued + {m})
    case Enqueue(m) => s.(unqueued := s.unqueued - {m}, cache := s.cache + [m])
    case Receive(i) => Move(s, i, Handling(s.cache[0], s.workers[i].polling)).(cache := s.cache[1..])
    case Finish(i) =>
      var w := s.workers[i];
      Move(s, i, Handled(w.m, w.polling)).(handled := s.handled + {w.m})
    case Ack(i) => Move(s, i, LoadState(s.workers[i].polling)).(recvNumber := s.recvNumber + 1)
    case Done(i) => Move(s, i, LoadState(true))
    case Tick(i) => Move(s, i, LoadState(true))
    case Load(i) => Move(s, i, AfterLoad(s, s.workers[i]))
  }

  // ---------- Runs ----------

  predicate IsRun(s: State, es: seq<Event>)
    decreases |es|
  {
    es == [] || (Enabled(s, es[0]) && IsRun(Apply(s, es[0]), es[1..]))
  }

  function After(s: State, es: seq<Event>): State
    requires IsRun(s, es)
    decreases |es|
  {
    if es == [] then s else After(Apply(s, es[0]), es[1..])
  }

  ghost predicate Reachable(s: State) {
    exists es :: IsRun(INITIAL, es) && After(INITIAL, es) == s
  }

  lemma {:induction false} RunAppend(s: State, es: seq<Event>, fs: seq<Event>)
    requires IsRun(s, es) && IsRun(After(s, es), fs)
    ensures IsRun(s, es + fs) && After(s, es + fs) == After(After(s, es), fs)
    decreases |es|
  {
    hide Apply, Enabled;
    if es == [] {
      assert es + fs == fs;
    } else {
      var all := es + fs;
      assert all[0] == es[0] && all[1..] == es[1..] + fs;
      RunAppend(Apply(s, es[0]), es[1..], fs);
    }
  }

  // ---------- The invariant ----------

  function BusyCount(ws: seq<Worker>): nat {
    if ws == [] then 0 else BusyCount(ws[..|ws| - 1]) + if ws[|ws| - 1].Busy() then 1 else 0
  }

  lemma {:induction false} BusyCountUpdate(ws: seq<Worker>, i: nat, w: Worker)
    requires i < |ws|
    ensures BusyCount(ws[i := w]) + (if ws[i].Busy() then 1 else 0)
         == BusyCount(ws) + (if w.Busy() then 1 else 0)
  {
    var n := |ws| - 1;
    if i == n {
      assert ws[i := w][..n] == ws[..n];
    } else {
      BusyCountUpdate(ws[..n], i, w);
      assert ws[i := w][..n] == ws[..n][i := w];
    }
  }

  lemma {:induction false} BusyCountPositive(ws: seq<Worker>)
    ensures BusyCount(ws) == 0 <==> forall i :: 0 <= i < |ws| ==> !ws[i].Busy()
  {
    if ws != [] {
      BusyCountPositive(ws[..|ws| - 1]);
    }
  }

  predicate InHand(s: State, m: Message) {
    exists i :: 0 <= i < |s.workers| && s.workers[i].Handling? && s.workers[i].m == m
  }

  /** Conservation: what was counted or carried in is acknowledged, queued, in a sender or in a worker. */
  predicate Accounted(s: State) {
    s.sendNumber + s.leftover == s.recvNumber + |s.cache| + |s.unqueued| + BusyCount(s.workers)
  }

  predicate Covered(s: State) {
    && s.atStop <= s.counted <= s.issued
    && s.unqueued <= s.issued
    && (forall m :: m in s.cache ==> m in s.issued)
    && forall m :: m in s.counted ==> m in s.handled || m in s.cache || m in s.unqueued || InHand(s, m)
  }

  predicate Phases(s: State) {
    && (s.run == Stopping <==> s.stopCall != NoStop)
    && (s.run == Started ==> s.waitMsg)
    && (s.run == Stopped ==> AllExited(s.workers))
    && (s.run != Stopped ==> s.workers != [])
    && (s.stopCall.WaitWorkers? ==> s.cancelled)
    && (s.stopCall.StoreWait? ==> s.waitMsg)
    && (s.run == Started ==> forall i :: 0 <= i < |s.workers| ==>
          !s.workers[i].Exited? && !s.workers[i].LoadWait? && !s.workers[i].LoadRecv? && !s.workers[i].LoadSend?)
  }

  predicate Drained(s: State) { s.atStop <= s.handled }

  /** What a worker that has loaded `recvNumber`, or has exited, knows. */
  predicate Witnessed(s: State) {
    s.leftover == 0 ==>
      && (forall i :: 0 <= i < |s.workers| && s.workers[i].LoadSend? ==>
            s.workers[i].recv <= s.sendNumber && (s.workers[i].recv == s.sendNumber ==> Drained(s)))
      && (s.waitMsg && s.sendNumber < COUNTER_RANGE && (exists i :: 0 <= i < |s.workers| && s.workers[i].Exited?) ==>
            Drained(s))
  }

  predicate Inv(s: State) {
    Accounted(s) && Covered(s) && Phases(s) && Witnessed(s)
  }

  predicate OnWorker(e: Event) {
    e.Receive? || e.Finish? || e.Ack? || e.Done? || e.Tick? || e.Load?
  }

  lemma AccountedWorkerStep(s: State, e: Event)
    requires Accounted(s) && Enabled(s, e) && OnWorker(e)
    ensures Accounted(Apply(s, e))
  {
    var t := Apply(s, e);
    BusyCountUpdate(s.workers, e.i, t.workers[e.i]);
    assert t.workers == s.workers[e.i := t.workers[e.i]];
  }

  lemma AccountedOtherStep(s: State, e: Event)
    requires Accounted(s) && s.unqueued <= s.issued && Enabled(s, e)
    requires !OnWorker(e) && !e.Start? && !e.AddRoutine?
    ensures Accounted(Apply(s, e))
  {
    if e.Enqueue? {
      assert s.unqueued == s.unqueued - {e.m} + {e.m};
    } else if e.Count? {
      assert e.m !in s.unqueued;
    }
  }

  lemma AccountedStep(s: State, e: Event)
    requires Accounted(s) && Covered(s) && Enabled(s, e)
    ensures Accounted(Apply(s, e))
  {
    hide Covered;
    if OnWorker(e) {
      AccountedWorkerStep(s, e);
    } else if e.AddRoutine? {
      assert Apply(s, e).workers[..|s.workers|] == s.workers;
    } else if e.Start? {
      assert [Select(false)][..0] == [];
    } else {
      assert s.unqueued <= s.issued by { AccountedNeeds(s); }
      AccountedOtherStep(s, e);
    }
  }

  lemma AccountedNeeds(s: State)
    requires Covered(s)
    ensures s.unqueued <= s.issued
  {
  }

  lemma CoveredStep(s: State, e: Event)
    requires Covered(s) && Enabled(s, e)
    ensures Covered(Apply(s, e))
  {
    var t := Apply(s, e);
    forall m | m in t.counted
      ensures m in t.handled || m in t.cache || m in t.unqueued || InHand(t, m)
    {
      if m in s.counted && InHand(s, m) && !e.Start? {
        var j :| 0 <= j < |s.workers| && s.workers[j].Handling? && s.workers[j].m == m;
        assert e == Finish(j) || t.workers[j] == s.workers[j];
      }
      if e.Receive? {
        assert t.workers[e.i].Handling?;
        assert s.cache == [s.cache[0]] + s.cache[1..];
      }
    }
  }

  /** When nothing is in flight, every counted message has been handled. */
  lemma NothingInFlight(s: State)
    requires Accounted(s) && Covered(s)
    requires s.leftover == 0
    ensures s.recvNumber <= s.sendNumber
    ensures s.recvNumber == s.sendNumber ==>
      s.cache == [] && s.unqueued == {} && BusyCount(s.workers) == 0 && s.counted <= s.handled
  {
    BusyCountPositive(s.workers);
  }

  /** Events of other goroutines leave what a worker knows true: the counters and `handled` only grow. */
  lemma WitnessedOtherStep(s: State, e: Event)
    requires Phases(s) && Witnessed(s) && Enabled(s, e) && !OnWorker(e)
    ensures Witnessed(Apply(s, e))
  {
    var t := Apply(s, e);
    if e.Start? {
    } else if e.AddRoutine? {
      assert forall i :: 0 <= i < |s.workers| ==> t.workers[i] == s.workers[i];
    } else {
      assert t.workers == s.workers;
    }
  }

  lemma WitnessedWorkerStep(s: State, e: Event)
    requires Phases(s) && Witnessed(s) && Enabled(s, e) && OnWorker(e)
    requires s.leftover == 0 ==>
      s.recvNumber <= s.sendNumber && (s.recvNumber == s.sendNumber ==> s.atStop <= s.handled)
    ensures Witnessed(Apply(s, e))
  {
    var t := Apply(s, e);
    assert forall j :: 0 <= j < |s.workers| && j != e.i ==> t.workers[j] == s.workers[j];
    assert s.handled <= t.handled && t.atStop == s.atStop && t.sendNumber == s.sendNumber;
    assert t.workers[e.i].LoadSend? ==> t.workers[e.i].recv == s.recvNumber;
    if t.workers[e.i].Exited? && t.waitMsg {
      assert s.workers[e.i].LoadSend?;
    }
  }

  lemma WitnessedStep(s: State, e: Event)
    requires Inv(s) && Enabled(s, e)
    ensures Witnessed(Apply(s, e))
  {
    if s.leftover == 0 {
      NothingInFlight(s);
    }
    if OnWorker(e) {
      WitnessedWorkerStep(s, e);
    } else {
      WitnessedOtherStep(s, e);
    }
  }

  lemma PhasesWorkerStep(s: State, e: Event)
    requires Phases(s) && Enabled(s, e) && OnWorker(e)
    ensures Phases(Apply(s, e))
  {
    var t := Apply(s, e);
    assert s.run != Stopped;
    assert forall j :: 0 <= j < |s.workers| && j != e.i ==> t.workers[j] == s.workers[j];
  }

  lemma PhasesStep(s: State, e: Event)
    requires Phases(s) && Enabled(s, e)
    ensures Phases(Apply(s, e))
  {
    if OnWorker(e) {
      PhasesWorkerStep(s, e);
    }
  }

  lemma InvStep(s: State, e: Event)
    requires Inv(s) && Enabled(s, e)
    ensures Inv(Apply(s, e))
  {
    AccountedStep(s, e);
    CoveredStep(s, e);
    PhasesStep(s, e);
    WitnessedStep(s, e);
  }

  lemma {:induction false} InvRun(s: State, es: seq<Event>)
    requires Inv(s) && IsRun(s, es)
    ensures Inv(After(s, es))
    decreases |es|
  {
    if es != [] {
      InvStep(s, es[0]);
      InvRun(Apply(s, es[0]), es[1..]);
    }
  }

  lemma ReachableInv(s: State)
    requires Reachable(s)
    ensures Inv(s)
  {
    var es :| IsRun(INITIAL, es) && After(INITIAL, es) == s;
    InvRun(INITIAL, es);
  }

  // ---------- Counter accounting and drain safety ----------

  /** In every reachable state the two counters differ by exactly what is in flight, less what
      `Start` carried in. */
  lemma CounterAccounting(s: State)
    requires Reachable(s)
    ensures s.sendNumber - s.recvNumber == |s.cache| + BusyCount(s.workers) + |s.unqueued| - s.leftover
  {
    ReachableInv(s);
  }

  /** When `Stop(true)` is about to return, every message counted before the state became
      `Stopping` has been handled. */
  lemma DrainSafety(s: State)
    requires Reachable(s)
    requires Enabled(s, StopReturns) && s.waitMsg
    requires s.leftover == 0 && s.sendNumber < COUNTER_RANGE
    ensures forall m :: m in s.atStop ==> m in s.handled
  {
    ReachableInv(s);
    assert s.workers[0].Exited?;
  }

  // ---------- The queue's order ----------

  /** The messages that senders put on the channel. */
  function Sent(es: seq<Event>): seq<Message> {
    if es == [] then [] else (if es[0].Enqueue? then [es[0].m] else []) + Sent(es[1..])
  }

  /** The messages that workers began to handle: what worker `i` is handling after its receive. */
  function BegunBy(s: State, e: Event): seq<Message>
    requires Enabled(s, e)
  {
    if !e.Receive? then [] else
    match Apply(s, e).workers[e.i]
    case Handling(m, _) => [m]
    case _ => []
  }

  function Begun(s: State, es: seq<Event>): seq<Message>
    requires IsRun(s, es)
    decreases |es|
  {
    if es == [] then [] else BegunBy(s, es[0]) + Begun(Apply(s, es[0]), es[1..])
  }

  predicate NewChannel(e: Event) {
    e.Start? && e.isNewCache
  }

  lemma QueueStep(s: State, e: Event)
    requires Enabled(s, e) && !NewChannel(e)
    ensures s.cache + Sent([e]) == BegunBy(s, e) + Apply(s, e).cache
  {
    if e.Receive? {
      assert s.cache == [s.cache[0]] + s.cache[1..];
    }
    assert Sent([e]) == if e.Enqueue? then [e.m] else [];
  }

  /** Over every run on one channel, across stops and restarts: the workers begin with the messages in
      the order in which they were sent, and what they have not begun with is still queued. */
  lemma {:induction false} FirstInFirstOut(s: State, es: seq<Event>)
    requires IsRun(s, es) && forall e :: e in es ==> !NewChannel(e)
    ensures s.cache + Sent(es) == Begun(s, es) + After(s, es).cache
    decreases |es|
  {
    if es == [] {
      assert s.cache + [] == [] + s.cache;
    } else {
      hide Enabled, Apply, BegunBy;
      assert es[0] in es && forall e :: e in es[1..] ==> e in es;
      var t, a, b := Apply(s, es[0]), Sent([es[0]]), Sent(es[1..]);
      QueueStep(s, es[0]);
      FirstInFirstOut(t, es[1..]);
      hide Sent;
      SentSplits(es);
      Splice(s.cache, a, b, BegunBy(s, es[0]), t.cache, Begun(t, es[1..]), After(s, es).cache);
    }
  }

  lemma SentSplits(es: seq<Event>)
    requires es != []
    ensures Sent(es) == Sent([es[0]]) + Sent(es[1..])
  {
    assert [es[0]][1..] == [];
  }

  lemma Splice(a: seq<Message>, b: seq<Message>, c: seq<Message>, d: seq<Message>, m: seq<Message>, f: seq<Message>,
      g: seq<Message>)
    requires a + b == d + m && m + c == f + g
    ensures a + (b + c) == (d + f) + g
  {
    assert a + (b + c) == (a + b) + c;
    assert (d + m) + c == d + (m + c);
    assert d + (f + g) == (d + f) + g;
  }

  /** The channel never holds more than a thousand messages, and a sender waits only when it does. */
  lemma QueueIsBounded(s: State, m: Message)
    requires Reachable(s)
    ensures |s.cache| <= 1000
    ensures m in s.unqueued ==> (Enabled(s, Enqueue(m)) <==> |s.cache| < 1000)
  {
    var es :| IsRun(INITIAL, es) && After(INITIAL, es) == s;
    BoundRun(INITIAL, es);
  }

  lemma {:induction false} BoundRun(s: State, es: seq<Event>)
    requires |s.cache| <= CACHE_NUMBER && IsRun(s, es)
    ensures |After(s, es).cache| <= CACHE_NUMBER
    decreases |es|
  {
    if es != [] {
      BoundRun(Apply(s, es[0]), es[1..]);
    }
  }

  /** The counters are compared as 32-bit registers. */
  lemma RegisterWraps(n: nat)
    ensures Register(n) < 0x1_0000_0000 && Register(n) == Register(n + 0x1_0000_0000)
    ensures n < 0x1_0000_0000 ==> Register(n) == n
  {
  }

  // ---------- Stop(false), new channels, added workers ----------

  /** After `Stop(false)` a worker that asks `isStopping` exits, whatever the counters say. */
  lemma StopWithoutWaiting(s: State, i: nat)
    requires s.run == Stopping && !s.waitMsg && i < |s.workers| && s.workers[i].LoadState?
    ensures Enabled(s, Load(i)) && Enabled(Apply(s, Load(i)), Load(i))
    ensures Apply(Apply(s, Load(i)), Load(i)).workers == s.workers[i := Exited]
  {
  }

  /** A new channel starts an epoch with nothing in flight, so that every `Stop(true)` in it drains. */
  lemma NewChannelDrains(b: State)
    requires Reachable(b) && b.run == Stopped
    ensures var s := Apply(b, Event.Start(true, b.unqueued));
      s.cache == [] && s.unqueued == {} && EveryStopDrains(s)
  {
    var s := Apply(b, Event.Start(true, b.unqueued));
    assert JustStarted(s);
    DrainIffEmptyStart(s);
  }

  /** A server starts with one worker, at its select, and with the queue that it had or an empty one. */
  lemma StartsWithOneWorker(b: State, isNew: bool, stranded: set<Message>)
    requires Enabled(b, Event.Start(isNew, stranded))
    ensures var s := Apply(b, Event.Start(isNew, stranded));
      && s.workers == [Select(false)] && s.cache == (if isNew then [] else b.cache)
      && !s.cancelled && s.sendNumber == s.recvNumber == 0
  {
  }

  predicate Polls(w: Worker) {
    match w
    case Exited => false
    case _ => w.polling
  }

  ghost predicate PollersSaw(s: State) {
    forall i :: 0 <= i < |s.workers| && Polls(s.workers[i]) ==> s.cancelled
  }

  lemma PollersSawStep(s: State, e: Event)
    requires PollersSaw(s) && Enabled(s, e)
    ensures PollersSaw(Apply(s, e))
  {
    var t := Apply(s, e);
    forall i | 0 <= i < |t.workers| && Polls(t.workers[i])
      ensures t.cancelled
    {
      assert OnWorker(e) && e.i == i ==> Polls(s.workers[i]) || e.Done?;
    }
  }

  lemma {:induction false} PollersSawRun(s: State, es: seq<Event>)
    requires PollersSaw(s) && IsRun(s, es)
    ensures PollersSaw(After(s, es))
    decreases |es|
  {
    if es != [] {
      PollersSawStep(s, es[0]);
      hide PollersSaw, Apply, Enabled;
      PollersSawRun(Apply(s, es[0]), es[1..]);
    }
  }

  /** The done case fires once for each worker, and the timer only for those that it has fired for. */
  lemma DoneThenTimer(s: State, i: nat)
    ensures Enabled(s, Done(i)) ==> !Enabled(s, Tick(i)) && Polls(Apply(s, Done(i)).workers[i])
    ensures Enabled(s, Tick(i)) ==> Polls(s.workers[i]) && Polls(Apply(s, Tick(i)).workers[i])
  {
  }

  /** Both fire only after `Stop` has cancelled the context. */
  lemma TimersAfterCancel(s: State, i: nat)
    requires Reachable(s)
    ensures Enabled(s, Done(i)) || Enabled(s, Tick(i)) ==> s.cancelled
  {
    var es :| IsRun(INITIAL, es) && After(INITIAL, es) == s;
    PollersSawRun(INITIAL, es);
    hide Apply, IsRun, After;
  }

  /** A worker added to a server that is being stopped notices it at once. */
  lemma AddedWorkerNotices(s: State)
    requires s.run != Stopped
    ensures var t := Apply(s, AddRoutine);
      && |t.workers| == |s.workers| + 1 && t.workers[..|s.workers|] == s.workers
      && (s.cancelled ==> Enabled(t, Done(|s.workers|)))
      && (s.cache != [] ==> Enabled(t, Receive(|s.workers|)))
  {
  }

  // ---------- Exactly the epochs that start empty are drained ----------

  /** `s` is what `Start` leaves behind. */
  ghost predicate JustStarted(s: State) {
    exists b, e: Event :: Reachable(b) && e.Start? && Enabled(b, e) && s == Apply(b, e)
  }

  lemma StartFacts(s: State)
    requires JustStarted(s)
    ensures Inv(s) && s.run == Started && s.waitMsg && s.workers == [Select(false)]
    ensures s.sendNumber == 0 && s.recvNumber == 0 && s.counted == {} && s.handled == {}
    ensures s.leftover == |s.cache| + |s.unqueued|
  {
    var b, e: Event :| Reachable(b) && e.Start? && Enabled(b, e) && s == Apply(b, e);
    ReachableInv(b);
    InvStep(b, e);
  }

  ghost predicate EpochRun(s: State, es: seq<Event>) {
    IsRun(s, es) && forall e: Event :: e in es ==> !e.Start?
  }

  /** Whatever happens in the epoch that begins in `s`, a `Stop(true)` returns only when drained. */
  ghost predicate EveryStopDrains(s: State) {
    forall es :: EpochRun(s, es) ==>
      var t := After(s, es);
      Enabled(t, StopReturns) && t.waitMsg && t.sendNumber < COUNTER_RANGE ==> Drained(t)
  }

  lemma {:induction false} EpochKeepsLeftover(s: State, es: seq<Event>)
    requires EpochRun(s, es)
    ensures After(s, es).leftover == s.leftover
    decreases |es|
  {
    if es != [] {
      assert es[0] in es;
      forall e: Event | e in es[1..] ensures !e.Start? { assert e in es; }
      EpochKeepsLeftover(Apply(s, es[0]), es[1..]);
    }
  }

  lemma Extend(s: State, es: seq<Event>, e: Event) returns (fs: seq<Event>)
    requires EpochRun(s, es) && Enabled(After(s, es), e) && !e.Start?
    ensures fs == es + [e]
    ensures EpochRun(s, fs) && After(s, fs) == Apply(After(s, es), e)
  {
    fs := es + [e];
    assert IsRun(After(s, es), [e]);
    RunAppend(s, es, [e]);
  }

  lemma {:induction false} Fresh(used: set<Message>) returns (m: Message)
    ensures m !in used
    ensures forall x :: x in used ==> x < m
  {
    if used == {} {
      m := 0;
    } else {
      var x :| x in used;
      var n := Fresh(used - {x});
      m := if n <= x then x + 1 else n;
      assert forall y :: y in used ==> y == x || y in used - {x};
    }
  }

  lemma EmptyRun(s: State)
    ensures EpochRun(s, []) && InternalRun(s, []) && After(s, []) == s
  {
  }

  /** The one worker handles a carried-in message while a new message is counted: the counters meet. */
  lemma MeetEarly(s: State) returns (es: seq<Event>, m: Message)
    requires s.run == Started && s.waitMsg && s.workers == [Select(false)]
    requires s.cache != [] && s.cache[0] in s.issued
    requires s.sendNumber == 0 && s.recvNumber == 0 && s.handled == {}
    ensures EpochRun(s, es)
    ensures var t := After(s, es);
      && t.run == Started && t.waitMsg && t.workers == [LoadState(false)]
      && t.sendNumber == 1 && t.recvNumber == 1 && m in t.counted && m !in t.handled
  {
    EmptyRun(s);
    hide IsRun, After;
    m := Fresh(s.issued);
    es := Extend(s, [], Count(m));
    es := Extend(s, es, Receive(0));
    es := Extend(s, es, Finish(0));
    es := Extend(s, es, Ack(0));
    assert After(s, es).handled == {s.cache[0]};
  }

  /** A single worker about to ask `isStopping` with equal counters lets `Stop(true)` return. */
  lemma StopNow(s: State) returns (es: seq<Event>)
    requires s.run == Started && s.waitMsg && s.workers == [LoadState(false)]
    requires s.sendNumber == s.recvNumber
    ensures EpochRun(s, es)
    ensures var t := After(s, es);
      && Enabled(t, StopReturns) && t.waitMsg && t.sendNumber == s.sendNumber
      && t.atStop == s.counted && t.handled == s.handled
  {
    EmptyRun(s);
    hide IsRun, After;
    es := Extend(s, [], StopCalled(true));
    es := Extend(s, es, StopStores);
    es := Extend(s, es, StopCancels);
    es := Extend(s, es, Load(0));
    es := Extend(s, es, Load(0));
    es := Extend(s, es, Load(0));
    es := Extend(s, es, Load(0));
    assert After(s, es).workers == [Exited];
  }

  /** With a message carried in, there is a run in which `Stop(true)` returns although a message
      counted before it has not been handled. */
  lemma LeftoverEscapes(s: State) returns (es: seq<Event>)
    requires Inv(s) && s.run == Started && s.workers == [Select(false)] && s.leftover > 0
    requires s.sendNumber == 0 && s.recvNumber == 0 && s.counted == {} && s.handled == {}
    ensures EpochRun(s, es)
    ensures var t := After(s, es);
      Enabled(t, StopReturns) && t.waitMsg && t.sendNumber < COUNTER_RANGE && !Drained(t)
  {
    EmptyRun(s);
    BusyCountPositive(s.workers);
    hide IsRun, After;
    es := [];
    if s.cache == [] {
      var u :| u in s.unqueued;
      es := Extend(s, es, Enqueue(u));
    }
    var fs, m := MeetEarly(After(s, es));
    var gs := StopNow(After(After(s, es), fs));
    RunAppend(After(s, es), fs, gs);
    RunAppend(s, es, fs + gs);
    es := es + (fs + gs);
  }

  /** The drain guarantee holds for an epoch if and only if the epoch starts with nothing in
      flight; `Start(false)` after messages were sent to a stopped actor breaks it. */
  lemma DrainIffEmptyStart(s: State)
    requires JustStarted(s)
    ensures EveryStopDrains(s) <==> s.cache == [] && s.unqueued == {}
  {
    StartFacts(s);
    if s.leftover == 0 {
      forall es | EpochRun(s, es)
        ensures var t := After(s, es);
          Enabled(t, StopReturns) && t.waitMsg && t.sendNumber < COUNTER_RANGE ==> Drained(t)
      {
        InvRun(s, es);
        EpochKeepsLeftover(s, es);
        var t := After(s, es);
        if Enabled(t, StopReturns) {
          assert t.workers[0].Exited?;
        }
      }
    } else {
      var es := LeftoverEscapes(s);
    }
  }

  lemma ExtendInitial(es: seq<Event>, e: Event) returns (fs: seq<Event>)
    requires IsRun(INITIAL, es) && Enabled(After(INITIAL, es), e)
    ensures fs == es + [e] && IsRun(INITIAL, fs) && After(INITIAL, fs) == Apply(After(INITIAL, es), e)
  {
    fs := es + [e];
    assert IsRun(After(INITIAL, es), [e]);
    RunAppend(INITIAL, es, [e]);
  }

  /** An actor is started and stopped. */
  lemma StartAndStop() returns (es: seq<Event>)
    ensures IsRun(INITIAL, es)
    ensures var s := After(INITIAL, es); s.run == Stopped && s.cache == [] && s.unqueued == {} && s.issued == {}
  {
    hide IsRun, After;
    assert IsRun(INITIAL, []) && After(INITIAL, []) == INITIAL by { EmptyRun(INITIAL); }
    es := ExtendInitial([], Event.Start(true, {}));
    es := ExtendInitial(es, StopCalled(true));
    es := ExtendInitial(es, StopStores);
    es := ExtendInitial(es, StopCancels);
    es := ExtendInitial(es, Done(0));
    es := ExtendInitial(es, Load(0));
    es := ExtendInitial(es, Load(0));
    es := ExtendInitial(es, Load(0));
    es := ExtendInitial(es, Load(0));
    assert After(INITIAL, es).workers == [Exited];
    es := ExtendInitial(es, StopReturns);
  }

  /** An epoch can start with a message in flight: it is sent to the stopped actor, which is then
      started with its old channel. */
  lemma LeftoverReachable() returns (s: State)
    ensures JustStarted(s) && s.leftover == 1
  {
    hide IsRun, After;
    var es := StartAndStop();
    es := ExtendInitial(es, Count(0));
    es := ExtendInitial(es, Enqueue(0));
    var b, e := After(INITIAL, es), Event.Start(false, {});
    assert Reachable(b);
    s := Apply(b, e);
  }

  // ---------- Progress ----------

  predicate Internal(e: Event) {
    e.Enqueue? || e.Receive? || e.Finish? || e.Ack? || e.Done? || e.Tick? || e.Load?
  }

  function Weight(w: Worker): nat {
    match w
    case Exited => 0
    case Handling(_, p) => 3 + if p then 0 else 1
    case Handled(_, p) => 2 + if p then 0 else 1
    case _ => 1 + if w.polling then 0 else 1
  }

  function Weights(ws: seq<Worker>): nat {
    if ws == [] then 0 else Weights(ws[..|ws| - 1]) + Weight(ws[|ws| - 1])
  }

  /** Work still to be done before every worker has exited. */
  function Measure(s: State): nat {
    4 * |s.unqueued| + 3 * |s.cache| + Weights(s.workers)
  }

  lemma {:induction false} WeightsUpdate(ws: seq<Worker>, i: nat, w: Worker)
    requires i < |ws|
    ensures Weights(ws[i := w]) + Weight(ws[i]) == Weights(ws) + Weight(w)
  {
    var n := |ws| - 1;
    if i == n {
      assert ws[i := w][..n] == ws[..n];
    } else {
      WeightsUpdate(ws[..n], i, w);
      assert ws[i := w][..n] == ws[..n][i := w];
    }
  }

  /** A poll: the timer fires, or `isStopping` loads and does not exit. */
  predicate Poll(s: State, e: Event)
    requires Enabled(s, e)
  {
    e.Tick? || (e.Load? && !AfterLoad(s, s.workers[e.i]).Exited?)
  }

  /** No internal event adds work, and every internal event other than a poll removes some. */
  lemma MeasureStep(s: State, e: Event)
    requires Internal(e) && Enabled(s, e)
    ensures Measure(Apply(s, e)) <= Measure(s)
    ensures !Poll(s, e) ==> Measure(Apply(s, e)) < Measure(s)
  {
    if e.Enqueue? {
      assert s.unqueued == s.unqueued - {e.m} + {e.m};
    } else {
      WeightsUpdate(s.workers, e.i, Apply(s, e).workers[e.i]);
      WeightStep(s, e);
    }
  }

  /** How many events of an internal run are no polls. */
  function Efforts(s: State, es: seq<Event>): nat
    requires IsRun(s, es)
    decreases |es|
  {
    if es == [] then 0 else (if Poll(s, es[0]) then 0 else 1) + Efforts(Apply(s, es[0]), es[1..])
  }

  /** Whatever the scheduler does, an internal run has no more steps other than polls than the measure
      says at its beginning. */
  lemma {:induction false} EffortsBounded(s: State, es: seq<Event>)
    requires InternalRun(s, es)
    ensures Efforts(s, es) + Measure(After(s, es)) <= Measure(s)
    decreases |es|
  {
    if es != [] {
      hide Measure, Poll, Enabled, Apply;
      assert es[0] in es && forall e: Event :: e in es[1..] ==> e in es;
      MeasureStep(s, es[0]);
      EffortsBounded(Apply(s, es[0]), es[1..]);
    }
  }

  lemma WeightStep(s: State, e: Event)
    requires OnWorker(e) && Enabled(s, e)
    ensures var t := Apply(s, e);
      && t.unqueued == s.unqueued && t.workers == s.workers[e.i := t.workers[e.i]]
      && |t.cache| + (if e.Receive? then 1 else 0) == |s.cache|
      && Weight(t.workers[e.i]) + (if Poll(s, e) then 0 else 1)
           <= Weight(s.workers[e.i]) + if e.Receive? then 3 else 0
  {
  }

  predicate Draining(s: State) {
    Inv(s) && s.stopCall.WaitWorkers? && s.waitMsg && s.leftover == 0
  }

  ghost predicate InternalRun(s: State, es: seq<Event>) {
    IsRun(s, es) && forall e :: e in es ==> Internal(e)
  }

  lemma ExtendInternal(s: State, es: seq<Event>, e: Event) returns (fs: seq<Event>)
    requires InternalRun(s, es) && Enabled(After(s, es), e) && Internal(e)
    requires Draining(After(s, es))
    ensures fs == es + [e]
    ensures InternalRun(s, fs) && After(s, fs) == Apply(After(s, es), e)
    ensures Draining(After(s, fs)) && Measure(After(s, fs)) <= Measure(After(s, es))
    ensures !Poll(After(s, es), e) ==> Measure(After(s, fs)) < Measure(After(s, es))
  {
    fs := es + [e];
    assert IsRun(After(s, es), [e]);
    RunAppend(s, es, [e]);
    InvStep(After(s, es), e);
    MeasureStep(After(s, es), e);
  }

  /** A worker that is inside `isStopping` leaves it: it exits or is back at its `select`. */
  lemma FinishLoads(s: State, i: nat) returns (es: seq<Event>)
    requires Draining(s) && i < |s.workers| && s.workers[i].Loading()
    ensures InternalRun(s, es) && Draining(After(s, es)) && Measure(After(s, es)) <= Measure(s)
    ensures After(s, es).sendNumber == s.sendNumber && After(s, es).recvNumber == s.recvNumber
    ensures |After(s, es).workers| == |s.workers|
    ensures var w := After(s, es).workers[i];
      (w.Exited? && Measure(After(s, es)) < Measure(s)) || w.Select?
    ensures (s.workers[i].LoadState? && s.recvNumber == s.sendNumber) ==> After(s, es).workers[i].Exited?
  {
    es := [];
    while After(s, es).workers[i].Loading()
      invariant InternalRun(s, es) && Draining(After(s, es)) && Measure(After(s, es)) <= Measure(s)
      invariant After(s, es).sendNumber == s.sendNumber && After(s, es).recvNumber == s.recvNumber
      invariant |After(s, es).workers| == |s.workers|
      invariant var w := After(s, es).workers[i];
        w.Loading() || w.Select? || (w.Exited? && Measure(After(s, es)) < Measure(s))
      invariant s.workers[i].LoadState? && s.recvNumber == s.sendNumber ==>
        var w := After(s, es).workers[i];
        w.LoadState? || w.LoadWait? || w.LoadRecv? || w.Exited? || (w.LoadSend? && w.recv == s.sendNumber)
      decreases match After(s, es).workers[i]
        case LoadState(_) => 4 case LoadWait(_) => 3 case LoadRecv(_) => 2 case LoadSend(_, _) => 1 case _ => 0
    {
      es := ExtendInternal(s, es, Load(i));
    }
  }

  /** A worker at its `select` finds something to do that lowers the measure. */
  lemma AdvanceFromSelect(s: State, i: nat) returns (es: seq<Event>)
    requires Draining(s) && i < |s.workers| && s.workers[i].Select?
    ensures InternalRun(s, es) && Draining(After(s, es)) && Measure(After(s, es)) < Measure(s)
  {
    EmptyRun(s);
    hide IsRun, After;
    if j :| 0 <= j < |s.workers| && s.workers[j].Handling? {
      es := ExtendInternal(s, [], Finish(j));
    } else if j :| 0 <= j < |s.workers| && s.workers[j].Handled? {
      es := ExtendInternal(s, [], Ack(j));
    } else if s.cache != [] {
      es := ExtendInternal(s, [], Receive(i));
    } else if s.unqueued != {} {
      var m :| m in s.unqueued;
      es := ExtendInternal(s, [], Enqueue(m));
    } else if !s.workers[i].polling {
      es := ExtendInternal(s, [], Done(i));
    } else {
      BusyCountPositive(s.workers);
      es := ExtendInternal(s, [], Tick(i));
      var fs := FinishLoads(After(s, es), i);
      RunAppend(s, es, fs);
      es := es + fs;
    }
  }

  /** While a worker is alive, some run of internal events lowers the measure. */
  lemma Advance(s: State) returns (es: seq<Event>)
    requires Draining(s) && !AllExited(s.workers)
    ensures InternalRun(s, es) && Draining(After(s, es)) && Measure(After(s, es)) < Measure(s)
  {
    EmptyRun(s);
    hide IsRun, After;
    var i :| 0 <= i < |s.workers| && !s.workers[i].Exited?;
    if s.workers[i].Handling? {
      es := ExtendInternal(s, [], Finish(i));
    } else if s.workers[i].Handled? {
      es := ExtendInternal(s, [], Ack(i));
    } else if s.workers[i].Select? {
      es := AdvanceFromSelect(s, i);
    } else {
      es := FinishLoads(s, i);
      if Measure(After(s, es)) == Measure(s) {
        var fs := AdvanceFromSelect(After(s, es), i);
        RunAppend(s, es, fs);
        es := es + fs;
      }
    }
  }

  /** Once `Stop(true)` waits in an epoch that started empty, it can always still return: from
      every reachable state some run without new sends lets every worker exit. */
  lemma {:induction false} StopCanReturn(s: State) returns (es: seq<Event>)
    requires Draining(s)
    ensures InternalRun(s, es) && Enabled(After(s, es), StopReturns)
    decreases Measure(s)
  {
    es := [];
    if !AllExited(s.workers) {
      es := Advance(s);
      var fs := StopCanReturn(After(s, es));
      RunAppend(s, es, fs);
      es := es + fs;
    }
  }

  lemma DrainProgress(s: State)
    requires Reachable(s) && s.stopCall.WaitWorkers? && s.waitMsg && s.leftover == 0
    ensures exists es :: InternalRun(s, es) && Enabled(After(s, es), StopReturns)
  {
    ReachableInv(s);
    var es := StopCanReturn(s);
  }

  // ---------- A leftover can also make Stop(true) wait for ever ----------

  /** The receive counter has overtaken the send counter and no worker has exited. */
  predicate Overtaken(s: State) {
    && s.stopCall.WaitWorkers? && s.waitMsg && s.workers != []
    && s.sendNumber == 0 < s.recvNumber
    && Accounted(s) && s.leftover < COUNTER_RANGE
    && forall i :: 0 <= i < |s.workers| ==>
         !s.workers[i].Exited? && (s.workers[i].LoadSend? ==> 0 < s.workers[i].recv < COUNTER_RANGE)
  }

  lemma OvertakenStep(s: State, e: Event)
    requires Overtaken(s) && Internal(e) && Enabled(s, e) && s.unqueued <= s.issued
    ensures Overtaken(Apply(s, e)) && Apply(s, e).unqueued <= Apply(s, e).issued
  {
    var t := Apply(s, e);
    if e.Enqueue? {
      AccountedOtherStep(s, e);
    } else {
      AccountedWorkerStep(s, e);
      assert forall j :: 0 <= j < |s.workers| && j != e.i ==> t.workers[j] == s.workers[j];
    }
  }

  lemma OvertakenBlocks(s: State)
    requires Overtaken(s)
    ensures s.stopCall.WaitWorkers? && s.waitMsg && !Enabled(s, StopReturns)
  {
    assert !s.workers[0].Exited?;
  }

  lemma {:induction false} OvertakenRun(s: State, es: seq<Event>)
    requires Overtaken(s) && InternalRun(s, es) && s.unqueued <= s.issued
    ensures Overtaken(After(s, es))
    decreases |es|
  {
    if es != [] {
      assert es[0] in es;
      OvertakenStep(s, es[0]);
      assert forall e :: e in es[1..] ==> e in es;
      OvertakenRun(Apply(s, es[0]), es[1..]);
    }
  }

  /** Handling the carried-in message before any send puts the receive counter ahead. */
  lemma Overtake(s: State) returns (es: seq<Event>)
    requires s.run == Started && s.waitMsg && s.workers == [Select(false)] && s.cache != []
    requires s.sendNumber == 0 && s.recvNumber == 0
    ensures EpochRun(s, es)
    ensures var t := After(s, es);
      && t.stopCall.WaitWorkers? && t.waitMsg && t.workers == [Select(false)]
      && t.sendNumber == 0 && t.recvNumber == 1
  {
    EmptyRun(s);
    hide IsRun, After;
    es := Extend(s, [], Receive(0));
    es := Extend(s, es, Finish(0));
    es := Extend(s, es, Ack(0));
    es := Extend(s, es, Load(0));
    es := Extend(s, es, StopCalled(true));
    es := Extend(s, es, StopStores);
    es := Extend(s, es, StopCancels);
    assert After(s, es).workers == [Select(false)];
  }

  lemma OvertakenFromStart(s: State) returns (es: seq<Event>)
    requires Inv(s) && s.run == Started && s.workers == [Select(false)]
    requires s.sendNumber == 0 && s.recvNumber == 0 && 0 < s.leftover < COUNTER_RANGE
    ensures EpochRun(s, es) && Overtaken(After(s, es))
    ensures After(s, es).unqueued <= After(s, es).issued
  {
    BusyCountPositive(s.workers);
    EmptyRun(s);
    hide IsRun, After;
    es := [];
    if s.cache == [] {
      var u :| u in s.unqueued;
      es := Extend(s, es, Enqueue(u));
    }
    var gs := Overtake(After(s, es));
    RunAppend(s, es, gs);
    es := es + gs;
    InvRun(s, es);
    EpochKeepsLeftover(s, es);
  }

  /** An epoch that starts with a message carried in has a run after which `Stop(true)` cannot
      return, however long the workers run, unless somebody sends again. */
  lemma LeftoverHangs(s: State) returns (es: seq<Event>)
    requires JustStarted(s) && 0 < s.leftover < COUNTER_RANGE
    ensures EpochRun(s, es) && After(s, es).stopCall.WaitWorkers? && After(s, es).waitMsg
    ensures forall fs :: InternalRun(After(s, es), fs) ==> !Enabled(After(After(s, es), fs), StopReturns)
  {
    StartFacts(s);
    hide Accounted, Overtaken, Enabled, IsRun, After, JustStarted;
    es := OvertakenFromStart(s);
    var t := After(s, es);
    OvertakenBlocks(t);
    forall fs | InternalRun(t, fs)
      ensures !Enabled(After(t, fs), StopReturns)
    {
      OvertakenRun(t, fs);
      OvertakenBlocks(After(t, fs));
    }
  }

  /** Some run without new sends lets the waiting `Stop(true)` return. */
  ghost predicate CanReturn(s: State) {
    exists es :: InternalRun(s, es) && Enabled(After(s, es), StopReturns)
  }

  /** In every state of the epoch in which `Stop(true)` waits, it can still return. */
  ghost predicate StopNeverHangs(s: State) {
    forall es :: EpochRun(s, es) && After(s, es).stopCall.WaitWorkers? && After(s, es).waitMsg ==>
      CanReturn(After(s, es))
  }

  /** That holds for an epoch if and only if it starts with nothing in flight. */
  lemma StopReturnsIffEmptyStart(s: State)
    requires JustStarted(s) && s.leftover < COUNTER_RANGE
    ensures StopNeverHangs(s) <==> s.leftover == 0
  {
    StartFacts(s);
    hide Enabled, IsRun, After, JustStarted, Inv;
    if s.leftover == 0 {
      forall es | EpochRun(s, es) && After(s, es).stopCall.WaitWorkers? && After(s, es).waitMsg
        ensures CanReturn(After(s, es))
      {
        InvRun(s, es);
        EpochKeepsLeftover(s, es);
        var fs := StopCanReturn(After(s, es));
      }
    } else {
      var es := LeftoverHangs(s);
      assert !CanReturn(After(s, es));
    }
  }

  // ---------- The server object ----------

  datatype History = History(
    leftover: nat, counted: set<Message>, handled: set<Message>, atStop: set<Message>, issued: set<Message>)

  /**
    The fields of `rpc.Server`, with the goroutine table and the senders between their two
    statements made explicit. Each method is one atomic action of the source, and leaves the
    object in the state that the corresponding event leads to.
   */
  class Server {
    var state: RunState
    var waitMsg: bool
    var cancelled: bool
    var sendNumber: nat
    var recvNumber: nat
    var cache: seq<Message>
    var unqueued: set<Message>
    var workers: seq<Worker>
    var stopCall: StopCall
    ghost var past: History

    ghost function View(): State
      reads this
    {
      State(state, waitMsg, cancelled, sendNumber, recvNumber, cache, unqueued, workers, stopCall,
            past.leftover, past.counted, past.handled, past.atStop, past.issued)
    }

    /** NewServer: a stopped server on which `Start(true)` has been called. */
    constructor ()
      ensures View() == Apply(INITIAL, Event.Start(true, {}))
    {
      state, waitMsg, cancelled, stopCall := Started, true, false, NoStop;
      sendNumber, recvNumber, cache, unqueued := 0, 0, [], {};
      workers := [Select(false)];
      past := History(0, {}, {}, {}, {});
    }

    /** `stranded` are the senders that already evaluated the old channel when it is replaced. */
    method Start(isNewCache: bool, stranded: set<Message>)
      requires stranded <= unqueued && (stranded != {} ==> isNewCache)
      modifies this
      ensures old(state) == Stopped ==> View() == AfterStart(old(View()), isNewCache, stranded)
      ensures old(state) != Stopped ==> View() == old(View())
    {
      if state == Stopped {
        ResetCounters();
        state, waitMsg, cancelled := Started, true, false;
        ReplaceCache(isNewCache, stranded);
        workers := [Select(false)];
        past := History(|cache| + |unqueued|, {}, {}, {}, past.issued);
      }
    }

    method ResetCounters()
      modifies `sendNumber, `recvNumber
      ensures sendNumber == 0 && recvNumber == 0
    {
      sendNumber := 0;
      recvNumber := 0;
    }

    method ReplaceCache(isNewCache: bool, stranded: set<Message>)
      modifies `cache, `unqueued
      ensures cache == if isNewCache then [] else old(cache)
      ensures unqueued == old(unqueued) - stranded
    {
      if isNewCache {
        cache := [];
      }
      unqueued := unqueued - stranded;
    }

    method AddRoutine()
      requires state != Stopped
      modifies this`workers
      ensures View() == Apply(old(View()), Event.AddRoutine)
    {
      workers := workers + [Select(false)];
    }

    /** `Stop` takes effect only on a started server. */
    method StopBegin(wait: bool) returns (began: bool)
      modifies this
      ensures began <==> old(state) == Started
      ensures View() == if began then Apply(old(View()), StopCalled(wait)) else old(View())
    {
      began := state == Started;
      if began {
        state := Stopping;
        stopCall := StoreWait(wait);
        past := past.(atStop := past.counted);
      }
    }

    method StopStoreWait()
      requires stopCall.StoreWait?
      modifies this
      ensures View() == Apply(old(View()), StopStores)
    {
      waitMsg := stopCall.waitMsg;
      stopCall := CancelContext;
    }

    method StopCancel()
      requires stopCall.CancelContext?
      modifies this
      ensures View() == Apply(old(View()), StopCancels)
    {
      cancelled := true;
      stopCall := WaitWorkers;
    }

    method StopReturn()
      requires Enabled(View(), StopReturns)
      modifies this
      ensures View() == Apply(old(View()), StopReturns)
    {
      state := Stopped;
      stopCall := NoStop;
    }

    /** `atomic.AddInt32(&server.SendNumber, 1)` of a sender. */
    method CountSend(m: Message)
      requires m !in past.issued
      modifies this
      ensures View() == Apply(old(View()), Count(m))
    {
      sendNumber := sendNumber + 1;
      unqueued := unqueued + {m};
      past := past.(counted := past.counted + {m}, issued := past.issued + {m});
    }

    /** `server.Cache <- msg` of a sender; it blocks while the channel is full. */
    method SendOnCache(m: Message)
      requires m in unqueued && |cache| < CACHE_NUMBER
      modifies this
      ensures View() == Apply(old(View()), Enqueue(m))
    {
      unqueued := unqueued - {m};
      cache := cache + [m];
    }

    method RunReceive(i: nat)
      requires Enabled(View(), Receive(i))
      modifies this
      ensures View() == Apply(old(View()), Receive(i))
    {
      workers := workers[i := Handling(cache[0], workers[i].polling)];
      cache := cache[1..];
    }

    method RunDoMsg(i: nat)
      requires Enabled(View(), Finish(i))
      modifies this
      ensures View() == Apply(old(View()), Finish(i))
    {
      past := past.(handled := past.handled + {workers[i].m});
      workers := workers[i := Handled(workers[i].m, workers[i].polling)];
    }

    method RunAddRecv(i: nat)
      requires Enabled(View(), Ack(i))
      modifies this
      ensures View() == Apply(old(View()), Ack(i))
    {
      recvNumber := recvNumber + 1;
      workers := workers[i := LoadState(workers[i].polling)];
    }

    /** The `done` case: the channel is set to nil, and the timer is used from now on. */
    method RunDone(i: nat)
      requires Enabled(View(), Done(i))
      modifies this
      ensures View() == Apply(old(View()), Done(i))
    {
      workers := workers[i := LoadState(true)];
    }

    method RunTimer(i: nat)
      requires Enabled(View(), Tick(i))
      modifies this
      ensures View() == Apply(old(View()), Tick(i))
    {
      workers := workers[i := LoadState(true)];
    }

    /** The next atomic load of `isStopping`. */
    method IsStoppingLoad(i: nat)
      requires Enabled(View(), Load(i))
      modifies this
      ensures View() == Apply(old(View()), Load(i))
    {
      var w := workers[i];
      var next: Worker;
      if w.LoadState? {
        next := if state == Stopping then LoadWait(w.polling) else Select(w.polling);
      } else if w.LoadWait? {
        next := if waitMsg then LoadRecv(w.polling) else Exited;
      } else if w.LoadRecv? {
        next := LoadSend(w.polling, recvNumber);
      } else {
        next := if Register(w.recv) == Register(sendNumber) then Exited else Select(w.polling);
      }
      workers := workers[i := next];
    }
  }
}
