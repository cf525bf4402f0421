/**
  Closing a socket: `SkpWriteChan`, `SkpCloseChan`, the reader and `SkpRun` of
  skpPublic/skpSocket/skpTcpSocket.go. Callers, reader and worker are separate goroutines; one event
  is one step of one of them, so any order of events is an interleaving.
 */
module SkpClose {

  type Data = seq<int>

  const READ_CHAN_MAX := 1000
  const WRITE_CHAN_MAX := 1000
  const CLOSE_CHAN_MAX := 5

  /** A call of `SkpWriteChan` or of `SkpCloseChan`, whoever makes it. */
  datatype Call = Write(data: Data) | Close

  /** Before the mutex; holding it; past the flag, about to send; sent; returned. */
  datatype Phase = Called | Locked | Checked | Sent | Returned(ok: bool)

  datatype Thread = Thread(call: Call, phase: Phase)
  {
    predicate Holds() {
      phase.Locked? || phase.Checked? || phase.Sent?
    }

    predicate PastFlag() {
      phase.Checked? || phase.Sent? || phase.Returned?
    }

    predicate Accepted() {
      call.Write? && (phase.Sent? || phase == Returned(true))
    }
  }

  /** `SkpRun`: at the select of its loop, or in the loop and inside its own call of `SkpCloseChan`;
      then the statements behind the loop one by one. */
  datatype Run = Looping | Calling(thread: nat) | Broken | WriteClosed | ConnClosed | Waited | ReadClosed | Ended
  {
    function Rank(): nat {
      match this
      case Looping => 0
      case Calling(_) => 0
      case Broken => 1
      case WriteClosed => 2
      case ConnClosed => 3
      case Waited => 4
      case ReadClosed => 5
      case Ended => 6
    }
  }

  /** `SkpRead`: not yet counted in the wait group; reading; with frames to send; past a read error;
      no longer counted. */
  datatype Reader = Starting | Reading | Sending(frames: nat) | Failed | Done

  datatype Item = Item(thread: nat, data: Data)

  datatype State = State(
    isCloseChan: bool,
    threads: map<nat, Thread>,
    writeChan: seq<Data>,
    closeChan: nat,
    readChan: nat,
    run: Run,
    reader: Reader,
    accepted: seq<Item>,
    handed: seq<Data>,          // what the worker has passed to Conn.Write
    reached: seq<Data>,         // how much of each item Conn.Write has written
    short: bool,                // some write wrote less than its item
    failed: bool,               // some write returned an error
    closeTokens: nat,
    panicked: bool)

  const INIT: State := State(false, map[], [], 0, 0, Looping, Starting, [], [], [], false, false, 0, false)

  datatype Event =
    | Invoke(thread: nat, call: Call)
    | Lock(thread: nat)
    | Check(thread: nat)
    | Send(thread: nat)
    | Unlock(thread: nat)
    | RunWrite(sent: nat, error: bool, thread: nat)
    | RunRead(bad: bool, thread: nat)
    | RunTimer(thread: nat)
    | RunBack
    | RunToken
    | RunNext
    | ReaderStart
    | ReaderRead(frames: nat)
    | ReaderFail
    | ReaderSend
    | ReaderBack
    | ReaderDone

  predicate Free(s: State) {
    forall t :: t in s.threads ==> !s.threads[t].Holds()
  }

  predicate At(s: State, t: nat, phase: Phase) {
    t in s.threads && s.threads[t].phase == phase
  }

  /** What each step waits for: the mutex, room in a channel, something in a channel, the reader. A
      send on a closed channel does not wait. */
  predicate Enabled(s: State, e: Event) {
    match e
    case Invoke(t, _) => t !in s.threads
    case Lock(t) => At(s, t, Called) && Free(s)
    case Check(t) => At(s, t, Locked)
    case Send(t) => At(s, t, Checked) && (if s.threads[t].call.Write?
      then s.run.Rank() >= 2 || |s.writeChan| < WRITE_CHAN_MAX
      else s.run.Rank() >= 6 || s.closeChan < CLOSE_CHAN_MAX)
    case Unlock(t) => At(s, t, Sent)
    case RunWrite(sent, error, t) =>
      && s.run == Looping && s.writeChan != [] && sent <= |s.writeChan[0]|
      && (sent < |s.writeChan[0]| ==> error) && t !in s.threads
    case RunRead(_, t) => s.run == Looping && s.readChan > 0 && t !in s.threads
    case RunTimer(t) => s.run == Looping && t !in s.threads
    case RunBack => s.run.Calling? && s.run.thread in s.threads && s.threads[s.run.thread].phase.Returned?
    case RunToken => s.run == Looping && s.closeChan > 0
    case RunNext =>
      s.run.Rank() >= 1 && s.run != Ended && (s.run == ConnClosed ==> s.reader == Starting || s.reader == Done)
    case ReaderStart => s.reader == Starting
    case ReaderRead(_) => s.reader == Reading && s.run.Rank() < 3
    case ReaderFail => s.reader == Reading
    case ReaderSend => s.reader.Sending? && s.reader.frames > 0 && (s.run.Rank() >= 5 || s.readChan < READ_CHAN_MAX)
    case ReaderBack => s.reader == Sending(0)
    case ReaderDone => s.reader == Failed
  }

  function Put(s: State, t: nat, phase: Phase): State
    requires t in s.threads
  {
    s.(threads := s.threads[t := s.threads[t].(phase := phase)])
  }

  function CheckStep(s: State, t: nat): State
    requires t in s.threads
  {
    if s.isCloseChan then Put(s, t, Returned(false))
    else if s.threads[t].call.Close? then Put(s, t, Checked).(isCloseChan := true)
    else Put(s, t, Checked)
  }

  function SendStep(s: State, t: nat): State
    requires t in s.threads
  {
    var u := Put(s, t, Sent);
    match s.threads[t].call
    case Write(data) =>
      if s.run.Rank() >= 2 then u.(panicked := true)
      else u.(writeChan := s.writeChan + [data], accepted := s.accepted + [Item(t, data)])
    case Close =>
      if s.run.Rank() >= 6 then u.(panicked := true)
      else u.(closeChan := s.closeChan + 1, closeTokens := s.closeTokens + 1)
  }

  /** The worker calls `SkpCloseChan`, after an error or a timeout; then it goes on with its loop. */
  function CallClose(s: State, t: nat): State {
    s.(run := Calling(t), threads := s.threads[t := Thread(Close, Called)])
  }

  /** `Conn.Write` of the next item: it writes `sent` bytes of it. */
  function WriteStep(s: State, sent: nat, error: bool, t: nat): State
    requires s.writeChan != [] && sent <= |s.writeChan[0]|
  {
    var data := s.writeChan[0];
    var u := s.(writeChan := s.writeChan[1..], handed := s.handed + [data], reached := s.reached + [data[..sent]],
                short := s.short || sent < |data|, failed := s.failed || error);
    if error then CallClose(u, t) else u
  }

  function NextRun(r: Run): Run {
    match r
    case Looping => Looping
    case Calling(t) => Calling(t)
    case Broken => WriteClosed
    case WriteClosed => ConnClosed
    case ConnClosed => Waited
    case Waited => ReadClosed
    case ReadClosed => Ended
    case Ended => Ended
  }

  function Apply(s: State, e: Event): State
    requires Enabled(s, e)
  {
    match e
    case Invoke(t, call) => s.(threads := s.threads[t := Thread(call, Called)])
    case Lock(t) => Put(s, t, Locked)
    case Check(t) => CheckStep(s, t)
    case Send(t) => SendStep(s, t)
    case Unlock(t) => Put(s, t, Returned(true))
    case RunWrite(sent, error, t) => WriteStep(s, sent, error, t)
    case RunRead(bad, t) =>
      var u := s.(readChan := s.readChan - 1);
      if bad then CallClose(u, t) else u
    case RunTimer(t) => CallClose(s, t)
    case RunBack => s.(run := Looping)
    case RunToken => s.(closeChan := s.closeChan - 1, run := Broken)
    case RunNext => s.(run := NextRun(s.run))
    case ReaderStart => s.(reader := Reading)
    case ReaderRead(n) => s.(reader := Sending(n))
    case ReaderFail => s.(reader := Failed)
    case ReaderSend =>
      if s.run.Rank() >= 5 then s.(panicked := true, reader := Sending(s.reader.frames - 1))
      else s.(readChan := s.readChan + 1, reader := Sending(s.reader.frames - 1))
    case ReaderBack => s.(reader := Reading)
    case ReaderDone => s.(reader := Done)
  }

  ghost predicate IsRun(s: State, es: seq<Event>)
    decreases |es|, 0
  {
    es == [] || (IsRun(s, es[..|es| - 1]) && Enabled(After(s, es[..|es| - 1]), es[|es| - 1]))
  }

  ghost function After(s: State, es: seq<Event>): State
    requires IsRun(s, es)
    decreases |es|, 1
  {
    if es == [] then s else Apply(After(s, es[..|es| - 1]), es[|es| - 1])
  }

  // ---------- The invariant ----------

  function Datas(items: seq<Item>): seq<Data> {
    seq(|items|, i requires 0 <= i < |items| => items[i].data)
  }

  /** One goroutine at most holds the mutex. */
  ghost predicate Mutex(s: State) {
    forall t, u :: t in s.threads && u in s.threads && s.threads[t].Holds() && s.threads[u].Holds() ==> t == u
  }

  /** The flag, the token and the holder of the mutex. */
  ghost predicate Flag(s: State) {
    && s.closeChan <= s.closeTokens <= 1
    && (s.closeTokens == 1 ==> s.isCloseChan)
    && (s.closeChan < s.closeTokens <==> s.run.Rank() >= 1)
    && (forall t :: At(s, t, Checked) ==>
          if s.threads[t].call.Write? then !s.isCloseChan else s.isCloseChan && s.closeTokens == 0)
    && (s.isCloseChan && s.closeTokens == 0 ==> exists t :: At(s, t, Checked) && s.threads[t].call.Close?)
  }

  /** Once the reader has been waited for, it has nothing to send and the connection is closed. */
  ghost predicate ReaderSafe(s: State) {
    s.readChan <= READ_CHAN_MAX && (s.run.Rank() >= 4 ==> !s.reader.Sending?)
  }

  /** What was accepted is what was handed to `Conn.Write` and what is still queued; of each item
      handed over a beginning was written, and all of it unless a write fell short. */
  ghost predicate Order(s: State) {
    && Datas(s.accepted) == s.handed + s.writeChan
    && |s.reached| == |s.handed|
    && (forall i :: 0 <= i < |s.handed| ==> s.reached[i] <= s.handed[i])
    && (s.short <==> s.reached != s.handed)
    && (s.short ==> s.failed)
  }

  /** A close call that is past the flag has set it or found it set; the worker is in its loop again
      after a failed write only when its own call has returned. */
  ghost predicate Failing(s: State) {
    && (forall t :: t in s.threads && s.threads[t].call.Close? && s.threads[t].PastFlag() ==> s.isCloseChan)
    && (s.run.Calling? ==> s.run.thread in s.threads && s.threads[s.run.thread].call.Close?)
    && (s.failed && s.run == Looping ==> s.isCloseChan)
  }

  predicate Names(s: State, i: nat)
    requires i < |s.accepted|
  {
    var a := s.accepted[i];
    a.thread in s.threads && s.threads[a.thread].Accepted() && s.threads[a.thread].call.data == a.data
  }

  ghost predicate IsListed(s: State, t: nat) {
    exists i :: 0 <= i < |s.accepted| && s.accepted[i].thread == t
  }

  /** The accepted items are those of the accepted calls, each once. */
  ghost predicate Listed(s: State) {
    && (forall i :: 0 <= i < |s.accepted| ==> Names(s, i))
    && (forall i, j :: 0 <= i < j < |s.accepted| ==> s.accepted[i].thread != s.accepted[j].thread)
    && (forall t :: t in s.threads && s.threads[t].Accepted() ==> IsListed(s, t))
  }

  ghost predicate Inv(s: State) {
    !s.panicked && Mutex(s) && Flag(s) && ReaderSafe(s) && Order(s) && Failing(s) && Listed(s)
  }

  /** The worker calls `SkpCloseChan`. */
  predicate BeginsClose(e: Event) {
    (e.RunWrite? && e.error) || (e.RunRead? && e.bad) || e.RunTimer?
  }

  /** A step of a call, as against one of the worker or the reader. */
  predicate OfCall(e: Event) {
    e.Lock? || e.Check? || e.Send? || e.Unlock?
  }

  /** Worker and reader change no call; at most they begin one. */
  lemma OthersKeepCalls(s: State, e: Event)
    requires Enabled(s, e) && !OfCall(e)
    ensures var r := Apply(s, e);
      && r.isCloseChan == s.isCloseChan && r.closeTokens == s.closeTokens && r.accepted == s.accepted
      && (r.threads == s.threads
          || exists t: nat, call: Call :: t !in s.threads && r.threads == s.threads[t := Thread(call, Called)])
    ensures !e.RunWrite? ==>
      Apply(s, e).writeChan == s.writeChan && Apply(s, e).handed == s.handed && Apply(s, e).reached == s.reached
  {
    if e.Invoke? {
      assert Apply(s, e).threads == s.threads[e.thread := Thread(e.call, Called)];
    } else if e.RunWrite? || e.RunRead? || e.RunTimer? {
      assert Apply(s, e).threads == s.threads || Apply(s, e).threads == s.threads[e.thread := Thread(Close, Called)];
    }
  }

  lemma MutexStep(s: State, e: Event)
    requires Inv(s) && Enabled(s, e)
    ensures Mutex(Apply(s, e))
  {
    hide Order, Listed, Failing, Flag, ReaderSafe;
    if !OfCall(e) {
      OthersKeepCalls(s, e);
      hide Apply, Enabled;
    }
  }

  lemma FlagOfCall(s: State, e: Event)
    requires Inv(s) && Enabled(s, e) && OfCall(e)
    ensures Flag(Apply(s, e))
  {
    var r := Apply(s, e);
    hide Order, Listed, Failing, ReaderSafe;
    if s.isCloseChan && s.closeTokens == 0 {
      var t :| At(s, t, Checked) && s.threads[t].call.Close?;
      assert s.threads[t].Holds();
    }
    if e.Check? && !s.isCloseChan {
      assert At(r, e.thread, Checked);
    }
  }

  lemma FlagOfOthers(s: State, e: Event)
    requires Flag(s) && Enabled(s, e) && !OfCall(e)
    ensures Flag(Apply(s, e))
  {
    OthersKeepCalls(s, e);
    TokenOfOthers(s, e);
    hide Apply, Enabled;
    var r := Apply(s, e);
    if s.isCloseChan && s.closeTokens == 0 {
      var t :| At(s, t, Checked) && s.threads[t].call.Close?;
      assert At(r, t, Checked);
    }
  }

  lemma TokenOfOthers(s: State, e: Event)
    requires Enabled(s, e) && !OfCall(e)
    ensures var r := Apply(s, e);
      if e.RunToken? then s.run.Rank() == 0 && r.run.Rank() == 1 && r.closeChan == s.closeChan - 1
      else r.closeChan == s.closeChan && (r.run.Rank() >= 1 <==> s.run.Rank() >= 1)
  {
  }

  lemma FlagStep(s: State, e: Event)
    requires Inv(s) && Enabled(s, e)
    ensures Flag(Apply(s, e))
  {
    hide Apply, Enabled, Order, Listed, Failing, ReaderSafe, Mutex, Flag;
    if OfCall(e) {
      FlagOfCall(s, e);
    } else {
      FlagOfOthers(s, e);
    }
  }

  lemma SendIsSafe(s: State, e: Event)
    requires Inv(s) && Enabled(s, e) && e.Send?
    ensures Apply(s, e) == SendStep(s, e.thread) && !Apply(s, e).panicked
  {
    hide Order, Listed, Failing, Mutex, ReaderSafe;
    assert At(s, e.thread, Checked);
  }

  lemma NoPanicStep(s: State, e: Event)
    requires Inv(s) && Enabled(s, e)
    ensures !Apply(s, e).panicked && ReaderSafe(Apply(s, e))
  {
    hide Order, Listed, Failing, Mutex, Flag;
    if e.Send? {
      SendIsSafe(s, e);
      hide Apply, Enabled;
    } else {
      hide CheckStep, SendStep, WriteStep;
      assert e.Check? || e.RunWrite? ==> Apply(s, e).panicked == s.panicked;
    }
  }

  lemma OrderStep(s: State, e: Event)
    requires Inv(s) && Enabled(s, e)
    ensures Order(Apply(s, e))
  {
    hide Mutex, Flag, Listed, Failing;
    var r := Apply(s, e);
    if e.Send? && s.threads[e.thread].call.Write? {
      NoPanicStep(s, e);
      assert Datas(r.accepted) == Datas(s.accepted) + [s.threads[e.thread].call.data];
    } else if e.RunWrite? {
      HandedStep(s, e.sent, e.error, e.thread);
    }
  }

  lemma HandedStep(s: State, sent: nat, error: bool, t: nat)
    requires Order(s) && s.writeChan != [] && sent <= |s.writeChan[0]| && (sent < |s.writeChan[0]| ==> error)
    ensures Order(WriteStep(s, sent, error, t))
  {
    var data, n := s.writeChan[0], |s.handed|;
    var r := WriteStep(s, sent, error, t);
    assert s.writeChan == [data] + s.writeChan[1..];
    assert data[..sent] == data <==> sent == |data|;
    assert r.handed[..n] == s.handed && r.reached[..n] == s.reached;
    assert r.handed[n] == data && r.reached[n] == data[..sent];
  }

  lemma FailingStep(s: State, e: Event)
    requires Inv(s) && Enabled(s, e)
    ensures Failing(Apply(s, e))
  {
    hide Mutex, Order, Listed, Flag, ReaderSafe;
    if !OfCall(e) {
      OthersKeepCalls(s, e);
    }
  }

  /** A thread's acceptance changes in its own send only. */
  lemma ListedThread(s: State, t: nat, r: State)
    requires Listed(s) && r.accepted == s.accepted && t in r.threads
    requires r.threads == s.threads[t := r.threads[t]]
    requires t in s.threads ==> r.threads[t].call == s.threads[t].call
    requires r.threads[t].Accepted() <==> t in s.threads && s.threads[t].Accepted()
    ensures Listed(r)
  {
    forall i | 0 <= i < |r.accepted|
      ensures Names(r, i)
    {
      assert Names(s, i);
    }
    forall u | u in r.threads && r.threads[u].Accepted()
      ensures IsListed(r, u)
    {
      assert IsListed(s, u);
    }
  }

  lemma ListedSend(s: State, t: nat, r: State)
    requires Listed(s) && At(s, t, Checked) && s.threads[t].call.Write?
    requires r.threads == s.threads[t := s.threads[t].(phase := Sent)]
    requires r.accepted == s.accepted + [Item(t, s.threads[t].call.data)]
    ensures Listed(r)
  {
    forall i | 0 <= i < |r.accepted|
      ensures Names(r, i)
    {
      if i < |s.accepted| {
        assert Names(s, i);
      }
    }
    forall u | u in r.threads && r.threads[u].Accepted()
      ensures IsListed(r, u)
    {
      if u == t {
        assert r.accepted[|s.accepted|].thread == t;
      } else {
        var i :| 0 <= i < |s.accepted| && s.accepted[i].thread == u;
        assert r.accepted[i].thread == u;
      }
    }
    forall i | 0 <= i < |s.accepted|
      ensures r.accepted[i] == s.accepted[i] && s.accepted[i].thread != t
    {
      assert Names(s, i);
    }
  }

  lemma ListedSame(s: State, r: State)
    requires Listed(s) && r.threads == s.threads && r.accepted == s.accepted
    ensures Listed(r)
  {
    forall i | 0 <= i < |r.accepted|
      ensures Names(r, i)
    {
      assert Names(s, i);
    }
    forall u | u in r.threads && r.threads[u].Accepted()
      ensures IsListed(r, u)
    {
      assert IsListed(s, u);
    }
  }

  lemma ListedStep(s: State, e: Event)
    requires Inv(s) && Enabled(s, e)
    ensures Listed(Apply(s, e))
  {
    hide Mutex, Flag, Order, Listed, Failing;
    var r := Apply(s, e);
    NoPanicStep(s, e);
    if e.Invoke? || e.Lock? || e.Check? || e.Unlock? || BeginsClose(e) {
      ListedThread(s, e.thread, r);
    } else if e.Send? {
      if s.threads[e.thread].call.Write? {
        ListedSend(s, e.thread, r);
      } else {
        ListedThread(s, e.thread, r);
      }
    } else {
      ListedSame(s, r);
    }
  }

  lemma InvStep(s: State, e: Event)
    requires Inv(s) && Enabled(s, e)
    ensures Inv(Apply(s, e))
  {
    hide Mutex, Flag, Order, ReaderSafe, Listed, Failing, Apply;
    MutexStep(s, e);
    FlagStep(s, e);
    NoPanicStep(s, e);
    OrderStep(s, e);
    ListedStep(s, e);
    FailingStep(s, e);
  }

  lemma {:induction false} InvRun(s: State, es: seq<Event>)
    requires Inv(s) && IsRun(s, es)
    ensures Inv(After(s, es))
    decreases |es|
  {
    hide Inv;
    if es != [] {
      InvRun(s, es[..|es| - 1]);
      InvStep(After(s, es[..|es| - 1]), es[|es| - 1]);
    }
  }

  lemma InvInit()
    ensures Inv(INIT)
  {
    assert Datas([]) == [];
  }

  lemma ReachableInv(es: seq<Event>)
    requires IsRun(INIT, es)
    ensures Inv(After(INIT, es))
  {
    InvInit();
    InvRun(INIT, es);
  }

  // ---------- Safety ----------

  /** No goroutine ever sends on a closed channel: not a writer on WriteChan, not a closer on
      CloseChan, and not the reader on ReadChan, even when it is first counted in the wait group
      after the worker has waited for it. */
  lemma NeverSendsOnClosed(es: seq<Event>)
    requires IsRun(INIT, es)
    ensures !After(INIT, es).panicked
    ensures var s := After(INIT, es); forall t :: At(s, t, Checked) ==> s.run.Rank() == 0
    ensures var s := After(INIT, es); s.run.Rank() >= 5 ==> !s.reader.Sending?
  {
    ReachableInv(es);
  }

  /** At most one close token is ever produced, it never waits for room, and it is there (or taken)
      as soon as the call that set the flag has let go of the mutex. */
  lemma OneToken(es: seq<Event>)
    requires IsRun(INIT, es)
    ensures var s := After(INIT, es); s.closeTokens <= 1
    ensures var s := After(INIT, es);
      forall t :: At(s, t, Checked) && s.threads[t].call.Close? ==> s.closeChan == 0 && Enabled(s, Send(t))
    ensures var s := After(INIT, es); Free(s) ==> (s.isCloseChan <==> s.closeTokens == 1)
  {
    ReachableInv(es);
    var s := After(INIT, es);
    if s.isCloseChan && s.closeTokens == 0 {
      var t :| At(s, t, Checked) && s.threads[t].call.Close?;
      assert s.threads[t].Holds();
    }
  }

  /** What is handed to `Conn.Write` is what was accepted, in the order of acceptance, up to some
      point; accepted are exactly the calls that return true (or are about to). */
  lemma HandedIsPrefix(es: seq<Event>)
    requires IsRun(INIT, es)
    ensures var s := After(INIT, es); s.handed <= Datas(s.accepted)
    ensures var s := After(INIT, es); s.handed == Datas(s.accepted) <==> s.writeChan == []
    ensures Listed(After(INIT, es))
  {
    ReachableInv(es);
  }

  function Flat(parts: seq<Data>): Data {
    if parts == [] then [] else Flat(parts[..|parts| - 1]) + parts[|parts| - 1]
  }

  lemma {:induction false} FlatPrefix(a: seq<Data>, b: seq<Data>)
    requires a <= b
    ensures Flat(a) <= Flat(b)
  {
    if |a| == |b| {
      assert a == b;
    } else {
      FlatPrefix(a, b[..|b| - 1]);
    }
  }

  /** Of the items `h`, of which the parts `r` were written, nothing was written behind a part that
      fell short. */
  predicate NothingBehindShort(r: seq<Data>, h: seq<Data>)
    requires |r| == |h|
  {
    forall i, j :: 0 <= i < j < |h| && r[i] != h[i] ==> r[j] == []
  }

  predicate Parts(r: seq<Data>, h: seq<Data>) {
    |r| == |h| && forall i :: 0 <= i < |h| ==> r[i] <= h[i]
  }

  /** No two bytes are equal, so that a byte's value tells its position. */
  predicate Distinct(d: Data) {
    forall i, j :: 0 <= i < j < |d| ==> d[i] != d[j]
  }

  lemma {:induction false} PartsAreShorter(r: seq<Data>, h: seq<Data>)
    requires Parts(r, h)
    ensures |Flat(r)| <= |Flat(h)|
    ensures r == h <==> |Flat(r)| == |Flat(h)|
  {
    if r != [] {
      var n := |r| - 1;
      PartsAreShorter(r[..n], h[..n]);
      assert r == r[..n] + [r[n]] && h == h[..n] + [h[n]];
      assert r[n] <= h[n] && (r[n] == h[n] <==> |r[n]| == |h[n]|);
    }
  }

  lemma {:induction false} InOrderIfNothingBehind(r: seq<Data>, h: seq<Data>)
    requires Parts(r, h) && NothingBehindShort(r, h)
    ensures Flat(r) <= Flat(h)
  {
    if r != [] {
      var n := |r| - 1;
      InOrderIfNothingBehind(r[..n], h[..n]);
      if r[..n] == h[..n] {
        assert r[n] <= h[n];
      } else {
        var i :| 0 <= i < n && r[i] != h[i];
        assert r[n] == [];
      }
    }
  }

  /** The first byte of a part stands behind the parts written and behind the items in full. */
  lemma SameByteTwice(before: Data, part: Data, full: Data, item: Data, all: Data)
    requires before + part <= all && full + item <= all && part <= item
    ensures part != [] ==> all[|before|] == all[|full|]
  {
    if part != [] {
      assert all[|before|] == (before + part)[|before|];
      assert all[|full|] == (full + item)[|full|];
    }
  }

  lemma {:induction false} NothingBehindIfInOrder(r: seq<Data>, h: seq<Data>, all: Data)
    requires Parts(r, h) && Flat(h) <= all && Distinct(all) && Flat(r) <= all
    ensures NothingBehindShort(r, h)
  {
    if r != [] {
      var n := |r| - 1;
      var before, full := Flat(r[..n]), Flat(h[..n]);
      assert Flat(r) == before + r[n] && Flat(h) == full + h[n];
      NothingBehindIfInOrder(r[..n], h[..n], all);
      forall i, j | 0 <= i < j < |h| && r[i] != h[i]
        ensures r[j] == []
      {
        if j < n {
          assert r[..n][i] != h[..n][i] && r[..n][j] == [];
        } else {
          assert r[..n][i] != h[..n][i];
          PartsAreShorter(r[..n], h[..n]);
          SameByteTwice(before, r[n], full, h[n], all);
        }
      }
    }
  }

  /** The bytes written are the accepted ones, in order, up to some point, if nothing was written
      behind a write that fell short; and only if, unless bytes happen to have equal values. */
  lemma BytesInOrderIff(es: seq<Event>)
    requires IsRun(INIT, es)
    ensures var s := After(INIT, es); |s.reached| == |s.handed|
    ensures var s := After(INIT, es);
      NothingBehindShort(s.reached, s.handed) ==> Flat(s.reached) <= Flat(Datas(s.accepted))
    ensures var s := After(INIT, es);
      Distinct(Flat(Datas(s.accepted))) ==>
        (Flat(s.reached) <= Flat(Datas(s.accepted)) <==> NothingBehindShort(s.reached, s.handed))
  {
    ReachableInv(es);
    var s := After(INIT, es);
    FlatPrefix(s.handed, Datas(s.accepted));
    if NothingBehindShort(s.reached, s.handed) {
      InOrderIfNothingBehind(s.reached, s.handed);
    }
    if Distinct(Flat(Datas(s.accepted))) && Flat(s.reached) <= Flat(Datas(s.accepted)) {
      NothingBehindIfInOrder(s.reached, s.handed, Flat(Datas(s.accepted)));
    }
  }

  lemma Extend(es: seq<Event>, e: Event)
    requires IsRun(INIT, es) && Enabled(After(INIT, es), e)
    ensures IsRun(INIT, es + [e]) && After(INIT, es + [e]) == Apply(After(INIT, es), e)
  {
    hide Enabled, Apply;
    assert (es + [e])[..|es|] == es;
  }

  /** One call from the mutex to its return, with nobody in the way. */
  lemma Passes(es: seq<Event>, t: nat) returns (fs: seq<Event>)
    requires IsRun(INIT, es) && At(After(INIT, es), t, Called) && Free(After(INIT, es))
    requires var s := After(INIT, es);
      && !s.isCloseChan && s.run.Rank() == 0
      && if s.threads[t].call.Write? then |s.writeChan| < WRITE_CHAN_MAX else s.closeChan == 0
    ensures IsRun(INIT, fs)
    ensures var s, r := After(INIT, es), After(INIT, fs);
      && r.threads == s.threads[t := s.threads[t].(phase := Returned(true))] && Free(r)
      && r == (match s.threads[t].call
        case Write(data) => s.(threads := r.threads, writeChan := s.writeChan + [data],
            accepted := s.accepted + [Item(t, data)])
        case Close => s.(threads := r.threads, isCloseChan := true, closeChan := 1, closeTokens := s.closeTokens + 1))
  {
    hide IsRun, After;
    Extend(es, Lock(t));
    fs := es + [Lock(t)];
    Extend(fs, Check(t));
    fs := fs + [Check(t)];
    Extend(fs, Send(t));
    fs := fs + [Send(t)];
    Extend(fs, Unlock(t));
    fs := fs + [Unlock(t)];
  }

  /** Behind a write that fell short the worker may hand over the next item, since its select may
      prefer the write channel to the close token: the peer then sees a gap. */
  lemma GapAfterShortWrite() returns (es: seq<Event>)
    ensures IsRun(INIT, es)
    ensures var s := After(INIT, es); Datas(s.accepted) == [[1, 2], [3]] && Flat(s.reached) == [1, 3]
  {
    hide IsRun, After;
    es := OneShort();
    Extend(es, RunWrite(1, false, 3));
    es := es + [RunWrite(1, false, 3)];
    assert [3][..1] == [3];
    assert After(INIT, es).reached == [[1], [3]];
    GapBytes();
  }

  /** On a dead connection the next write fails as well, and the bytes stay in order. */
  lemma DeadConnection() returns (es: seq<Event>)
    ensures IsRun(INIT, es)
    ensures var s := After(INIT, es);
      && s.handed == Datas(s.accepted) == [[1, 2], [3]] && s.reached == [[1], []]
      && NothingBehindShort(s.reached, s.handed)
  {
    hide IsRun, After;
    es := OneShort();
    Extend(es, RunWrite(0, true, 3));
    es := es + [RunWrite(0, true, 3)];
    assert [3][..0] == [];
  }

  /** The first of two items fell short, and the worker is back in its loop. */
  lemma OneShort() returns (es: seq<Event>)
    ensures IsRun(INIT, es)
    ensures var s := After(INIT, es);
      && Datas(s.accepted) == [[1, 2], [3]] && s.handed == [[1, 2]] && s.reached == [[1]] && s.writeChan == [[3]]
      && s.run == Looping && 3 !in s.threads
  {
    hide IsRun, After;
    es := TwoQueued();
    ShortWrite(After(INIT, es));
    Extend(es, RunWrite(1, true, 2));
    es := es + [RunWrite(1, true, 2)];
    es := Passes(es, 2);
    Extend(es, RunBack);
    es := es + [RunBack];
  }

  lemma GapBytes()
    ensures Flat([[1], [3]]) == [1, 3]
  {
    assert [[1], [3]][..1] == [[1]] && [[1]][..0] == [];
    assert Flat([[1]]) == [1];
  }

  lemma ShortWrite(s: State)
    requires s.writeChan == [[1, 2], [3]] && s.handed == s.reached == []
    ensures var r := WriteStep(s, 1, true, 2); r.handed == [[1, 2]] && r.reached == [[1]] && r.writeChan == [[3]]
  {
    assert [1, 2][..1] == [1];
  }

  lemma TwoQueued() returns (es: seq<Event>)
    ensures IsRun(INIT, es)
    ensures var s := After(INIT, es);
      && s.writeChan == [[1, 2], [3]] && s.accepted == [Item(0, [1, 2]), Item(1, [3])]
      && s.handed == s.reached == []
      && s.run == Looping && !s.isCloseChan && s.closeChan == 0 && Free(s) && s.threads.Keys == {0, 1}
      && Datas(s.accepted) == [[1, 2], [3]]
  {
    hide IsRun, After;
    es := [];
    assert IsRun(INIT, es) && After(INIT, es) == INIT by { EmptyRun(); }
    Extend(es, Invoke(0, Write([1, 2])));
    es := es + [Invoke(0, Write([1, 2]))];
    es := Passes(es, 0);
    Extend(es, Invoke(1, Write([3])));
    es := es + [Invoke(1, Write([3]))];
    es := Passes(es, 1);
  }

  lemma EmptyRun()
    ensures IsRun(INIT, []) && After(INIT, []) == INIT
  {
  }

  /** When the worker goes on with its loop after a failed write, the flag is set: what it may still
      hand over was accepted before. */
  lemma FailedWriteCloses(es: seq<Event>)
    requires IsRun(INIT, es)
    ensures var s := After(INIT, es); s.failed && s.run == Looping ==> s.isCloseChan
    ensures var s := After(INIT, es); s.short ==> s.failed
  {
    ReachableInv(es);
  }

  predicate InTrouble(s: State) {
    s.isCloseChan || s.run.Calling?
  }

  lemma TroubleStep(s: State, e: Event)
    requires Inv(s) && Enabled(s, e) && (BeginsClose(e) || InTrouble(s))
    ensures InTrouble(Apply(s, e))
  {
    hide Order, Listed, Mutex, Flag, ReaderSafe, SendStep;
    if OfCall(e) {
      FlagStays(s, e);
    }
  }

  lemma FlagStays(s: State, e: Event)
    requires Enabled(s, e) && OfCall(e)
    ensures Apply(s, e).run == s.run && (s.isCloseChan ==> Apply(s, e).isCloseChan)
  {
  }

  /** After a failed write, a bad frame or a timeout, at any time, the close flag is set or the worker is
      still in its call that sets it. */
  lemma {:induction false} TroubleCloses(es: seq<Event>, i: nat)
    requires IsRun(INIT, es) && i < |es|
    requires (es[i].RunWrite? && es[i].error) || (es[i].RunRead? && es[i].bad) || es[i].RunTimer?
    ensures InTrouble(After(INIT, es))
  {
    hide Inv, Apply, Enabled, InTrouble;
    var n := |es| - 1;
    ReachableInv(es[..n]);
    if i < n {
      TroubleCloses(es[..n], i);
    }
    TroubleStep(After(INIT, es[..n]), es[n]);
  }

  /** Nothing is accepted once the flag is set, and nothing is handed over once the loop has ended. */
  lemma {:induction false} ClosedForGood(s: State, es: seq<Event>)
    requires Inv(s) && IsRun(s, es)
    ensures s.isCloseChan ==> After(s, es).isCloseChan && After(s, es).accepted == s.accepted
    ensures s.run.Rank() >= 1 ==> Settled(s, After(s, es))
    decreases |es|
  {
    if es != [] {
      ClosedForGood(s, es[..|es| - 1]);
      InvRun(s, es[..|es| - 1]);
      ClosedStep(After(s, es[..|es| - 1]), es[|es| - 1]);
    }
  }

  predicate Settled(s: State, r: State) {
    && r.run.Rank() >= 1 && r.writeChan == s.writeChan
    && r.handed == s.handed && r.reached == s.reached && r.short == s.short
  }

  lemma ClosedStep(s: State, e: Event)
    requires Inv(s) && Enabled(s, e)
    ensures var r := Apply(s, e); s.isCloseChan ==> r.isCloseChan && r.accepted == s.accepted
    ensures s.run.Rank() >= 1 ==> Settled(s, Apply(s, e))
  {
    hide Order, Listed, Mutex, Failing;
  }

  /** When the worker takes the token, what is written is settled: in every later state it is all
      that was accepted exactly if the write channel was empty and no write had fallen short. */
  lemma AllWrittenIff(es: seq<Event>, later: seq<Event>)
    requires IsRun(INIT, es) && Enabled(After(INIT, es), RunToken)
    requires IsRun(Apply(After(INIT, es), RunToken), later)
    ensures var s, end := After(INIT, es), After(Apply(After(INIT, es), RunToken), later);
      end.reached == Datas(end.accepted) <==> s.writeChan == [] && !s.short
  {
    ReachableInv(es);
    var s := After(INIT, es);
    InvStep(s, RunToken);
    var u := Apply(s, RunToken);
    ClosedForGood(u, later);
    InvRun(u, later);
    var end := After(u, later);
    assert |Datas(end.accepted)| == |end.handed| + |end.writeChan|;
  }

  // ---------- Does the close finish? ----------

  /** The worker no longer receives, and the reader has more frames to hand over than fit. */
  predicate Wedged(s: State) {
    1 <= s.run.Rank() <= 3 && s.reader.Sending? && s.reader.frames > READ_CHAN_MAX - s.readChan
  }

  lemma WedgedStep(s: State, e: Event)
    requires Inv(s) && Wedged(s) && Enabled(s, e)
    ensures Wedged(Apply(s, e))
  {
    hide Order, Listed, Mutex, Flag, Failing;
  }

  lemma {:induction false} WedgedStays(s: State, es: seq<Event>)
    requires Inv(s) && Wedged(s) && IsRun(s, es)
    ensures Wedged(After(s, es))
    decreases |es|
  {
    hide Inv, Wedged, Apply;
    if es != [] {
      WedgedStays(s, es[..|es| - 1]);
      InvRun(s, es[..|es| - 1]);
      WedgedStep(After(s, es[..|es| - 1]), es[|es| - 1]);
    }
  }

  /** A step of the reader, or of the worker behind its loop. */
  predicate Closing(e: Event) {
    e.RunNext? || e.ReaderStart? || e.ReaderFail? || e.ReaderSend? || e.ReaderBack? || e.ReaderDone?
  }

  function ReaderWork(r: Reader): nat {
    match r
    case Starting => 3
    case Reading => 2
    case Sending(n) => 3 + n
    case Failed => 1
    case Done => 0
  }

  function Work(s: State): nat {
    ReaderWork(s.reader) + (6 - s.run.Rank())
  }

  predicate Unwedged(s: State) {
    s.run.Rank() >= 3 && !Wedged(s)
  }

  lemma ClosingStep(s: State, e: Event)
    requires Inv(s) && Unwedged(s) && Enabled(s, e) && (Closing(e) || e.ReaderRead?)
    ensures Unwedged(Apply(s, e)) && Work(Apply(s, e)) < Work(s)
  {
    hide Order, Listed, Mutex, Flag, Failing;
  }

  lemma ClosingEnabled(s: State) returns (e: Event)
    requires Inv(s) && Unwedged(s) && s.run != Ended
    ensures Closing(e) && Enabled(s, e)
  {
    hide Order, Listed, Mutex, Flag, Failing;
    e := if Enabled(s, RunNext) then RunNext
    else if s.reader == Reading then ReaderFail
    else if s.reader == Failed then ReaderDone
    else if s.reader == Sending(0) then ReaderBack
    else ReaderSend;
  }

  lemma {:induction false} Finishes(s: State, es: seq<Event>) returns (more: seq<Event>)
    requires Inv(s) && IsRun(s, es) && Unwedged(After(s, es))
    ensures IsRun(s, more) && After(s, more).run == Ended
    decreases Work(After(s, es))
  {
    hide Inv, Unwedged, Work, Enabled, Apply;
    InvRun(s, es);
    var u := After(s, es);
    if u.run == Ended {
      more := es;
    } else {
      var e := ClosingEnabled(u);
      ClosingStep(u, e);
      assert (es + [e])[..|es|] == es;
      more := Finishes(s, es + [e]);
    }
  }

  /** Once the connection is closed, the worker can still come to its end exactly when the frames
      the reader holds fit into the read channel, which nobody empties any more. */
  lemma CloseFinishesIff(es: seq<Event>)
    requires IsRun(INIT, es) && After(INIT, es).run == ConnClosed
    ensures var s := After(INIT, es);
      (exists more :: IsRun(s, more) && After(s, more).run == Ended)
      <==> (s.reader.Sending? ==> s.reader.frames <= 1000 - s.readChan)
  {
    ReachableInv(es);
    var s := After(INIT, es);
    if Wedged(s) {
      forall more | IsRun(s, more)
        ensures After(s, more).run != Ended
      {
        WedgedStays(s, more);
      }
    } else {
      var more := Finishes(s, []);
    }
  }

  /** The reader hands over `n` frames, one for each read, while the worker receives none. */
  lemma {:induction false} FillReads(n: nat) returns (es: seq<Event>)
    requires n <= READ_CHAN_MAX
    ensures IsRun(INIT, es)
    ensures After(INIT, es) == INIT.(readChan := n, reader := Reading)
  {
    hide IsRun, After;
    if n == 0 {
      assert IsRun(INIT, []) && After(INIT, []) == INIT by { EmptyRun(); }
      Extend([], ReaderStart);
      es := [] + [ReaderStart];
    } else {
      es := FillReads(n - 1);
      Extend(es, ReaderRead(1));
      es := es + [ReaderRead(1)];
      Extend(es, ReaderSend);
      es := es + [ReaderSend];
      Extend(es, ReaderBack);
      es := es + [ReaderBack];
    }
  }

  /** It can come to that with any peer: the worker has not received a full channel's frames yet, the
      reader holds one more, and the worker's next choice is the close token. */
  lemma WedgedReachable() returns (es: seq<Event>)
    ensures IsRun(INIT, es) && Wedged(After(INIT, es))
    ensures After(INIT, es).readChan == 1000 && After(INIT, es).reader == Sending(1)
  {
    hide IsRun, After;
    es := FillReads(READ_CHAN_MAX);
    Extend(es, ReaderRead(1));
    es := es + [ReaderRead(1)];
    Extend(es, Invoke(0, Close));
    es := es + [Invoke(0, Close)];
    es := Passes(es, 0);
    Extend(es, RunToken);
    es := es + [RunToken];
  }

  /** Behind its loop the worker does one statement after the other and nothing else; only a reader that
      is counted in the wait group, and not done, can hold it up, after the connection is closed. */
  lemma StatementsInOrder(s: State)
    ensures 1 <= s.run.Rank() <= 5 ==>
      (Enabled(s, RunNext) <==> s.run.Rank() != 3 || s.reader.Starting? || s.reader.Done?)
    ensures Enabled(s, RunNext) ==>
      && Apply(s, RunNext).run.Rank() == s.run.Rank() + 1
      && Apply(s, RunNext) == s.(run := Apply(s, RunNext).run)
  {
  }

  /** What a send waits for while its channel is open. */
  lemma SendWaits(s: State, t: nat)
    requires Inv(s)
    ensures At(s, t, Checked) && s.threads[t].call.Write? ==> (Enabled(s, Send(t)) <==> |s.writeChan| < 1000)
    ensures s.reader.Sending? && s.reader.frames > 0 ==> (Enabled(s, ReaderSend) <==> s.readChan < 1000)
  {
    hide Order, Listed, Failing;
  }

  /** What is still to come through the read channel, and what the reader has taken in. */
  function Unread(s: State): nat {
    s.readChan + if s.reader.Sending? then s.reader.frames else 0
  }

  lemma UnreadStep(s: State, e: Event)
    requires Inv(s) && Enabled(s, e) && s.run.Rank() >= 3
    ensures Apply(s, e).run.Rank() >= 3 && Unread(Apply(s, e)) == Unread(s)
  {
    hide Order, Listed, Mutex, Failing;
  }

  /** Once the connection is closed the reader takes in no more frames, and the worker none of those
      there are. */
  lemma {:induction false} ReaderTakesNoMore(s: State, es: seq<Event>)
    requires Inv(s) && s.run.Rank() >= 3 && IsRun(s, es)
    ensures After(s, es).run.Rank() >= 3 && Unread(After(s, es)) == Unread(s)
    decreases |es|
  {
    hide Inv, Apply, Unread;
    if es != [] {
      ReaderTakesNoMore(s, es[..|es| - 1]);
      InvRun(s, es[..|es| - 1]);
      UnreadStep(After(s, es[..|es| - 1]), es[|es| - 1]);
    }
  }

  /** The frames that the reader took in, those that it handed over, and those that the worker took. */
  datatype Tally = Tally(read: nat, sent: nat, taken: nat)

  function TallyOf(es: seq<Event>): Tally {
    if es == [] then Tally(0, 0, 0) else
    var t := TallyOf(es[..|es| - 1]);
    match es[|es| - 1]
    case ReaderRead(n) => t.(read := t.read + n)
    case ReaderSend => t.(sent := t.sent + 1)
    case RunRead(_, _) => t.(taken := t.taken + 1)
    case _ => t
  }

  function Pending(r: Reader): nat {
    if r.Sending? then r.frames else 0
  }

  lemma CallsKeepReader(s: State, e: Event)
    requires Enabled(s, e) && OfCall(e)
    ensures Apply(s, e).reader == s.reader && Apply(s, e).readChan == s.readChan
  {
  }

  lemma TallyStep(s: State, e: Event)
    requires Inv(s) && Enabled(s, e)
    ensures var r := Apply(s, e);
      && Pending(r.reader) + (if e.ReaderSend? then 1 else 0)
         == Pending(s.reader) + (if e.ReaderRead? then e.frames else 0)
      && r.readChan + (if e.RunRead? then 1 else 0) == s.readChan + (if e.ReaderSend? then 1 else 0)
  {
    hide Order, Listed, Mutex, Failing, Flag;
    if OfCall(e) {
      CallsKeepReader(s, e);
      hide Apply, Enabled;
    } else {
      hide CheckStep, SendStep;
    }
  }

  /** Every frame that the reader took in is with it, in the channel, or with the worker, once. */
  lemma {:induction false} FramesAreKept(es: seq<Event>)
    requires IsRun(INIT, es)
    ensures var s, t := After(INIT, es), TallyOf(es);
      t.read == t.sent + Pending(s.reader) && t.sent == t.taken + s.readChan
  {
    if es != [] {
      FramesAreKept(es[..|es| - 1]);
      ReachableInv(es[..|es| - 1]);
      hide Inv, Apply, Enabled, Pending;
      TallyStep(After(INIT, es[..|es| - 1]), es[|es| - 1]);
    } else {
      assert After(INIT, es) == INIT;
    }
  }

  // ---------- Does the worker come back from its own call? ----------

  /** A writer holds the mutex and waits, or is going to wait, for room in the full write channel. */
  predicate Blocks(s: State, w: nat) {
    && w in s.threads && s.threads[w].call.Write? && |s.writeChan| >= WRITE_CHAN_MAX
    && (s.threads[w].phase.Checked? || (s.threads[w].phase.Locked? && !s.isCloseChan))
  }

  /** The worker, who alone empties the write channel, waits for that mutex. */
  ghost predicate Deadlocked(s: State) {
    s.run.Calling? && At(s, s.run.thread, Called) && exists w :: Blocks(s, w)
  }

  lemma DeadlockStep(s: State, e: Event)
    requires Inv(s) && Deadlocked(s) && Enabled(s, e)
    ensures Deadlocked(Apply(s, e))
  {
    hide Order, Listed, Failing;
    var w :| Blocks(s, w);
    assert s.threads[w].Holds();
    assert Blocks(Apply(s, e), w);
  }

  lemma {:induction false} DeadlockStays(s: State, es: seq<Event>)
    requires Inv(s) && Deadlocked(s) && IsRun(s, es)
    ensures Deadlocked(After(s, es))
    decreases |es|
  {
    hide Inv, Deadlocked, Apply;
    if es != [] {
      DeadlockStays(s, es[..|es| - 1]);
      InvRun(s, es[..|es| - 1]);
      DeadlockStep(After(s, es[..|es| - 1]), es[|es| - 1]);
    }
  }

  function Stage(p: Phase): nat {
    match p
    case Called => 4
    case Locked => 3
    case Checked => 2
    case Sent => 1
    case Returned(_) => 0
  }

  /** The next step of a thread that holds the mutex and does not wait for room. */
  lemma HolderStep(s: State, u: nat) returns (e: Event)
    requires Inv(s) && s.run.Rank() == 0 && u in s.threads && s.threads[u].Holds() && !Blocks(s, u)
    ensures Enabled(s, e)
    ensures var r := Apply(s, e);
      && r.run == s.run && u in r.threads && r.threads == s.threads[u := r.threads[u]]
      && r.threads[u].call == s.threads[u].call && Stage(r.threads[u].phase) < Stage(s.threads[u].phase) < 4
      && !Blocks(r, u)
  {
    hide Order, Listed, Failing, Mutex;
    e := if s.threads[u].phase.Locked? then Check(u) else if s.threads[u].phase.Checked? then Send(u) else Unlock(u);
  }

  /** The holder of the mutex goes on until it has returned. */
  lemma {:induction false} HolderReturns(s: State, es: seq<Event>, u: nat) returns (more: seq<Event>)
    requires Inv(s) && IsRun(s, es) && After(s, es).run.Rank() == 0
    requires u in After(s, es).threads && Stage(After(s, es).threads[u].phase) < 4 && !Blocks(After(s, es), u)
    ensures IsRun(s, more) && After(s, more).run == After(s, es).run
    ensures u in After(s, more).threads && After(s, more).threads[u].phase.Returned?
    ensures After(s, more).threads.Keys == After(s, es).threads.Keys
    ensures forall v :: v in After(s, es).threads && v != u ==>
      v in After(s, more).threads && After(s, more).threads[v] == After(s, es).threads[v]
    decreases Stage(After(s, es).threads[u].phase)
  {
    InvRun(s, es);
    hide Inv, Blocks, Enabled, Apply;
    var t := After(s, es);
    more := es;
    if !t.threads[u].phase.Returned? {
      var e := HolderStep(t, u);
      assert (es + [e])[..|es|] == es;
      more := HolderReturns(s, es + [e], u);
    }
  }

  /** The worker's call, once it has the mutex or can have it, returns; then the worker is back. */
  lemma OwnCall(s: State, es: seq<Event>) returns (more: seq<Event>)
    requires Inv(s) && IsRun(s, es) && After(s, es).run.Calling? && After(s, es).run.thread in After(s, es).threads
    requires At(After(s, es), After(s, es).run.thread, Called) ==> Free(After(s, es))
    ensures IsRun(s, more) && After(s, more).run == Looping
  {
    InvRun(s, es);
    var t := After(s, es).run.thread;
    assert After(s, es).threads[t].call.Close?;
    hide Inv;
    more := es;
    if At(After(s, es), t, Called) {
      more := es + [Lock(t)];
      assert more[..|es|] == es;
    }
    assert !Blocks(After(s, more), t);
    hide Enabled, Apply, Blocks;
    more := HolderReturns(s, more, t);
    Returns(s, more);
    more := more + [RunBack];
  }

  lemma Returns(s: State, es: seq<Event>)
    requires IsRun(s, es) && After(s, es).run.Calling? && After(s, es).run.thread in After(s, es).threads
    requires After(s, es).threads[After(s, es).run.thread].phase.Returned?
    ensures IsRun(s, es + [RunBack]) && After(s, es + [RunBack]).run == Looping
  {
    assert (es + [RunBack])[..|es|] == es;
  }

  /** A worker inside its own `SkpCloseChan` can come back to its loop exactly if it does not wait for
      a mutex whose holder waits for room in the write channel. */
  lemma WorkerComesBackIff(es: seq<Event>)
    requires IsRun(INIT, es) && After(INIT, es).run.Calling?
    ensures var s := After(INIT, es);
      (exists more :: IsRun(s, more) && After(s, more).run == Looping) <==> !Deadlocked(s)
  {
    ReachableInv(es);
    var s := After(INIT, es);
    if Deadlocked(s) {
      forall more | IsRun(s, more)
        ensures After(s, more).run != Looping
      {
        DeadlockStays(s, more);
      }
    } else {
      var more := ComesBack(s);
    }
  }

  lemma ComesBack(s: State) returns (more: seq<Event>)
    requires Inv(s) && s.run.Calling? && !Deadlocked(s)
    ensures IsRun(s, more) && After(s, more).run == Looping
  {
    var t := s.run.thread;
    more := [];
    assert t in s.threads && IsRun(s, []) && After(s, []) == s;
    if At(s, t, Called) && !Free(s) {
      var u :| u in s.threads && s.threads[u].Holds();
      assert !Blocks(s, u);
      more := HolderReturns(s, [], u);
      var r := After(s, more);
      InvRun(s, more);
      Freed(s, r, u);
    }
    hide Inv, Enabled, Apply;
    more := OwnCall(s, more);
  }

  lemma Freed(s: State, r: State, u: nat)
    requires Mutex(s) && u in s.threads && s.threads[u].Holds()
    requires u in r.threads && r.threads[u].phase.Returned? && r.threads.Keys == s.threads.Keys
    requires forall v :: v in s.threads && v != u ==> v in r.threads && r.threads[v] == s.threads[v]
    ensures Free(r)
  {
  }

  /** Accepted items fill the write channel. */
  lemma {:induction false} Fill(n: nat) returns (es: seq<Event>)
    requires n <= WRITE_CHAN_MAX
    ensures IsRun(INIT, es)
    ensures var s := After(INIT, es);
      && |s.writeChan| == n && s.run == Looping && !s.isCloseChan && s.closeChan == 0 && Free(s)
      && forall t :: t in s.threads ==> t < n
  {
    hide IsRun, After;
    es := [];
    assert IsRun(INIT, es) && After(INIT, es) == INIT by { EmptyRun(); }
    if n > 0 {
      es := Fill(n - 1);
      Extend(es, Invoke(n - 1, Write([0])));
      es := Passes(es + [Invoke(n - 1, Write([0]))], n - 1);
    }
  }

  /** It can come to that: one writer more than the channel holds, and a timeout of the worker. */
  lemma DeadlockReachable() returns (es: seq<Event>)
    ensures IsRun(INIT, es) && Deadlocked(After(INIT, es)) && |After(INIT, es).writeChan| == 1000
  {
    hide IsRun, After;
    var w := WRITE_CHAN_MAX;
    es := Fill(w);
    Extend(es, Invoke(w, Write([0])));
    es := es + [Invoke(w, Write([0]))];
    Extend(es, Lock(w));
    es := es + [Lock(w)];
    Extend(es, RunTimer(w + 1));
    es := es + [RunTimer(w + 1)];
    assert Blocks(After(INIT, es), w);
  }

  // ---------- The object ----------

  /** What happened so far; no step depends on it. */
  datatype History = History(
    accepted: seq<Item>, handed: seq<Data>, reached: seq<Data>, short: bool, failed: bool, closeTokens: nat)

  /** The socket's own fields and the positions of the goroutines that use it. Each method is what
      one of them does between two points where others may run. */
  class Socket {
    var isCloseChan: bool
    var threads: map<nat, Thread>
    var writeChan: seq<Data>
    var closeChan: nat
    var readChan: nat
    var run: Run
    var reader: Reader
    ghost var past: History

    ghost function View(): State
      reads this
    {
      State(isCloseChan, threads, writeChan, closeChan, readChan, run, reader,
            past.accepted, past.handed, past.reached, past.short, past.failed, past.closeTokens, false)
    }

    constructor ()
      ensures View() == INIT && Inv(View())
    {
      isCloseChan, threads, run, reader := false, map[], Looping, Starting;
      writeChan, closeChan, readChan := [], 0, 0;
      past := History([], [], [], false, false, 0);
      new;
      InvInit();
    }

    /** A caller enters `SkpWriteChan` or `SkpCloseChan`. */
    method Invoke(t: nat, call: Call)
      requires Inv(View()) && t !in threads
      modifies `threads
      ensures Inv(View()) && View() == Apply(old(View()), Event.Invoke(t, call))
    {
      hide Inv;
      InvStep(View(), Event.Invoke(t, call));
      threads := threads[t := Thread(call, Called)];
    }

    method Acquire(t: nat)
      requires Inv(View()) && Enabled(View(), Lock(t))
      modifies `threads
      ensures Inv(View()) && View() == Apply(old(View()), Lock(t))
    {
      hide Inv;
      InvStep(View(), Lock(t));
      threads := threads[t := threads[t].(phase := Locked)];
    }

    /** The flag: a call that finds it set returns false and lets the mutex go; a close sets it. */
    method TestFlag(t: nat)
      requires Inv(View()) && Enabled(View(), Check(t))
      modifies `threads, `isCloseChan
      ensures Inv(View()) && View() == Apply(old(View()), Check(t))
    {
      hide Inv;
      InvStep(View(), Check(t));
      if isCloseChan {
        threads := threads[t := threads[t].(phase := Returned(false))];
        return;
      }
      if threads[t].call.Close? {
        isCloseChan := true;
      }
      threads := threads[t := threads[t].(phase := Checked)];
    }

    /** The send on WriteChan or on CloseChan. */
    method Push(t: nat)
      requires Inv(View()) && Enabled(View(), Send(t))
      modifies `threads, `writeChan, `closeChan, `past
      ensures Inv(View()) && View() == Apply(old(View()), Send(t))
    {
      hide Inv;
      InvStep(View(), Send(t));
      NoPanicStep(View(), Send(t));
      if threads[t].call.Write? {
        writeChan := writeChan + [threads[t].call.data];
        past := past.(accepted := past.accepted + [Item(t, threads[t].call.data)]);
      } else {
        closeChan := closeChan + 1;
        past := past.(closeTokens := past.closeTokens + 1);
      }
      threads := threads[t := threads[t].(phase := Sent)];
    }

    method Release(t: nat)
      requires Inv(View()) && Enabled(View(), Unlock(t))
      modifies `threads
      ensures Inv(View()) && View() == Apply(old(View()), Unlock(t))
    {
      hide Inv;
      InvStep(View(), Unlock(t));
      threads := threads[t := threads[t].(phase := Returned(true))];
    }

    /** The worker's loop takes an item and hands it to `Conn.Write`, which writes `sent` bytes of it;
        after an error the worker calls `SkpCloseChan`. */
    method WriteNext(sent: nat, error: bool, t: nat)
      requires Inv(View()) && Enabled(View(), RunWrite(sent, error, t))
      modifies `writeChan, `run, `threads, `past
      ensures Inv(View()) && View() == Apply(old(View()), RunWrite(sent, error, t))
    {
      hide Inv;
      InvStep(View(), RunWrite(sent, error, t));
      var data := writeChan[0];
      writeChan := writeChan[1..];
      past := past.(handed := past.handed + [data], reached := past.reached + [data[..sent]],
                    short := past.short || sent < |data|, failed := past.failed || error);
      if error {
        BeginClose(t);
      }
    }

    method BeginClose(t: nat)
      modifies `run, `threads
      ensures run == Calling(t) && threads == old(threads)[t := Thread(Close, Called)]
    {
      run, threads := Calling(t), threads[t := Thread(Close, Called)];
    }

    /** The worker's loop takes a frame; if that is bad it calls `SkpCloseChan`. */
    method ReadNext(bad: bool, t: nat)
      requires Inv(View()) && Enabled(View(), RunRead(bad, t))
      modifies `readChan, `run, `threads
      ensures Inv(View()) && View() == Apply(old(View()), RunRead(bad, t))
    {
      hide Inv;
      InvStep(View(), RunRead(bad, t));
      readChan := readChan - 1;
      if bad {
        BeginClose(t);
      }
    }

    method Timeout(t: nat)
      requires Inv(View()) && Enabled(View(), RunTimer(t))
      modifies `run, `threads
      ensures Inv(View()) && View() == Apply(old(View()), RunTimer(t))
    {
      hide Inv;
      InvStep(View(), RunTimer(t));
      BeginClose(t);
    }

    /** The worker's own call has returned. */
    method Continue()
      requires Inv(View()) && Enabled(View(), RunBack)
      modifies `run
      ensures Inv(View()) && View() == Apply(old(View()), RunBack)
    {
      hide Inv;
      InvStep(View(), RunBack);
      run := Looping;
    }

    method TakeToken()
      requires Inv(View()) && Enabled(View(), RunToken)
      modifies `closeChan, `run
      ensures Inv(View()) && View() == Apply(old(View()), RunToken)
    {
      hide Inv;
      InvStep(View(), RunToken);
      closeChan := closeChan - 1;
      run := Broken;
    }

    /** The statements behind the loop: close WriteChan, close the connection, wait for the reader,
        close ReadChan, close CloseChan. */
    method Finish()
      requires Inv(View()) && Enabled(View(), RunNext)
      modifies `run
      ensures Inv(View()) && View() == Apply(old(View()), RunNext)
    {
      hide Inv;
      InvStep(View(), RunNext);
      run := NextRun(run);
    }

    /** One step of `SkpRead`. */
    method ReaderTurn(e: Event)
      requires Inv(View()) && Enabled(View(), e)
      requires e.ReaderStart? || e.ReaderRead? || e.ReaderFail? || e.ReaderSend? || e.ReaderBack? || e.ReaderDone?
      modifies `reader, `readChan
      ensures Inv(View()) && View() == Apply(old(View()), e)
    {
      hide Inv;
      InvStep(View(), e);
      NoPanicStep(View(), e);
      if e.ReaderStart? || e.ReaderBack? {
        reader := Reading;
      } else if e.ReaderRead? {
        reader := Sending(e.frames);
      } else if e.ReaderFail? {
        reader := Failed;
      } else if e.ReaderSend? {
        readChan := readChan + 1;
        reader := Sending(reader.frames - 1);
      } else {
        reader := Done;
      }
    }
  }
}
