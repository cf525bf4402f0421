/**
  The broker files its queues under topic + "_" + tag (skynet_go/mq/server/server.go:176-190), so two
  pairs can share a queue, whose producer then serves the subscribers of the first pair only. Exactly
  which requests are executed by subscribers of their own topic and tag alone.
 */
module MqNames {
  import opened MqBroker
  import opened MqDelivery
  import opened Options
  import Text

  /** A client can be registered for the topic, and requests for it are queued. */
  predicate IsTopic(topic: string) {
    topic != "Mq" && Text.Trim(topic, Text.BLANKS) == topic
  }

  /** The queue's name has another underscore with a topic before it. */
  predicate Ambiguous(topic: string, tag: string) {
    var name := topic + "_" + tag;
    exists i :: 0 <= i < |name| && i != |topic| && name[i] == '_' && IsTopic(name[..i])
  }

  /** Names without underscores are never ambiguous. */
  lemma PlainNames(topic: string, tag: string)
    requires '_' !in topic && '_' !in tag
    ensures !Ambiguous(topic, tag)
  {
  }

  /** The smallest case: the request shares its queue with those for topic "a" and tag "b_c". */
  lemma Collision()
    ensures Ambiguous("a_b", "c") && KeyOf("a_b", "c") == KeyOf("a", "b_c")
  {
    var name := "a_b" + "_" + "c";
    assert name[1] == '_' && name[..1] == "a";
  }

  /** In no reachable state has such a request been executed by a client that was not registered for its
      topic and tag. */
  ghost predicate OwnSubscribersOnly(topic: string, tag: string) {
    forall s, x :: Reachable(s) && x in s.log.executed && x.request.topic == topic && x.request.tag == tag ==>
      GrantedFor(s.log, x.executor, topic, tag)
  }

  // ---------- Registrations are trimmed ----------

  ghost predicate Trimmed(l: Log) {
    forall g :: g in l.granted ==> Text.Trim(g.topic, Text.BLANKS) == g.topic
  }

  lemma {:induction false} TrimRightKeepsFirst(s: string, cut: set<char>)
    requires s != "" && s[0] !in cut
    ensures Text.TrimRight(s, cut) != "" && Text.TrimRight(s, cut)[0] == s[0]
  {
    if s[|s| - 1] in cut {
      TrimRightKeepsFirst(s[..|s| - 1], cut);
    }
  }

  lemma {:induction false} TrimLeftStarts(s: string, cut: set<char>)
    ensures var t := Text.TrimLeft(s, cut); t == "" || t[0] !in cut
  {
    if s != "" && s[0] in cut {
      TrimLeftStarts(s[1..], cut);
    }
  }

  lemma {:induction false} TrimRightTwice(s: string, cut: set<char>)
    ensures Text.TrimRight(Text.TrimRight(s, cut), cut) == Text.TrimRight(s, cut)
  {
    if s != "" && s[|s| - 1] in cut {
      TrimRightTwice(s[..|s| - 1], cut);
    }
  }

  lemma TrimTwice(s: string, cut: set<char>)
    ensures Text.Trim(Text.Trim(s, cut), cut) == Text.Trim(s, cut)
  {
    var left := Text.TrimLeft(s, cut);
    TrimLeftStarts(s, cut);
    TrimRightTwice(left, cut);
    if left != "" {
      TrimRightKeepsFirst(left, cut);
    }
  }

  lemma TrimmedStep(s: State, e: Event)
    requires Enabled(s, e) && Trimmed(s.log)
    ensures Trimmed(Apply(s, e).log)
  {
    if e.BrokerReads? && Decide(s.clients[e.c].peer, s.clients[e.c].up[0]) == Register {
      TrimTwice(s.clients[e.c].up[0].body.topic, Text.BLANKS);
      hide Text.Trim, Decide;
    } else {
      hide Text.Trim, Decide, DoMqMsg, EndCall, Subscribes;
    }
  }

  lemma {:induction false} TrimmedRun(s: State, es: seq<Event>)
    requires Trimmed(s.log) && IsRun(s, es)
    ensures Trimmed(After(s, es).log)
    decreases |es|
  {
    if es != [] {
      TrimmedStep(s, es[0]);
      hide Trimmed, Apply, Enabled;
      TrimmedRun(Apply(s, es[0]), es[1..]);
    }
  }

  lemma UnambiguousIsSafe(topic: string, tag: string)
    requires topic == "Mq" || tag == "*" || !Ambiguous(topic, tag)
    ensures OwnSubscribersOnly(topic, tag)
  {
    forall s, x | Reachable(s) && x in s.log.executed && x.request.topic == topic && x.request.tag == tag
      ensures GrantedFor(s.log, x.executor, topic, tag)
    {
      ExecutorWasRegistered(s, x);
      var g, own :| g in s.log.granted && g.client == x.executor && (g.tag == "*" || own in Text.Split(g.tag, "||"))
        && g.topic + "_" + own == topic + "_" + tag && g.topic != "Mq";
      var es :| IsRun(INITIAL, es) && After(INITIAL, es) == s;
      TrimmedRun(INITIAL, es);
      OnlyReading(topic, tag, g.topic, own);
      assert Matches(g, topic, tag);
    }
  }

  /** Two pairs that give the same name are equal, or the name is ambiguous. */
  lemma OnlyReading(topic: string, tag: string, other: string, own: string)
    requires other + "_" + own == topic + "_" + tag && IsTopic(other)
    ensures (other == topic && own == tag) || Ambiguous(topic, tag)
  {
    var name := topic + "_" + tag;
    var i := |other|;
    assert name == other + "_" + own && name[..i] == other && name[i] == '_';
    if i == |topic| {
      assert name[..i] == topic && name[i + 1..] == own && name[i + 1..] == tag;
    }
  }

  // ---------- A request that goes astray ----------

  lemma Then(s: State, es: seq<Event>, e: Event) returns (fs: seq<Event>)
    requires IsRun(s, es) && Enabled(After(s, es), e)
    ensures IsRun(s, fs) && After(s, fs) == Apply(After(s, es), e)
  {
    RunOne(After(s, es), e);
    RunAppend(s, es, [e]);
    fs := es + [e];
  }

  /** The queue's producer keeps its client for the next message. */
  lemma NextWrite(s: State, es: seq<Event>, key: Key, d: ClientId) returns (fs: seq<Event>)
    requires IsRun(s, es)
    requires var t := After(s, es);
      && AtClient(t, key) && t.queues[key].client == Some(d) && t.queues[key].phase.Idle?
      && t.clients[d].peer.start && !t.clients[d].peer.stopSubscribe
    ensures IsRun(s, fs)
    ensures var t := After(s, es);
      After(s, fs) == SetQueue(t, key, t.queues[key].(phase := Ready))
  {
    hide IsRun, After;
    var t := After(s, es);
    fs := Then(s, es, QueueTests(key));
    assert After(s, fs) == SetQueue(t, key, t.queues[key].(phase := Tested));
    fs := Then(s, fs, QueueConnects(key));
  }

  /** Both requests are in the queue that was made for the first. */
  lemma BothQueued(s: State, c: ClientId, m1: MqMsg, m2: MqMsg) returns (es: seq<Event>)
    requires Home(s, c) && s.queues == map[] && m1.topic != "Mq" && m2.topic != "Mq"
    requires m1 == RequestOf(s.clients[c].node, m1.topic, m1.tag, m1.class_, m1.method_, m1.body)
    requires m2 == RequestOf(BeginCall(s.clients[c].node, m1), m2.topic, m2.tag, m2.class_, m2.method_, m2.body)
    requires KeyOf(m2.topic, m2.tag) == KeyOf(m1.topic, m1.tag)
    ensures IsRun(s, es)
    ensures After(s, es) ==
      Asked(Asked(s, c, m1, Queue(m1.topic, m1.tag, [m1], None, Idle)), c, m2,
            Queue(m1.topic, m1.tag, [m1, m2], None, Idle))
  {
    hide IsRun, After, KeyOf, Apply, Enabled;
    es := RequestEnters(s, c, m1);
    var t := After(s, es);
    assert [] + [m1] == [m1];
    assert t == Asked(s, c, m1, Queue(m1.topic, m1.tag, [m1], None, Idle));
    assert Home(t, c);
    var fs := RequestEnters(t, c, m2);
    RunAppend(s, es, fs);
    es := es + fs;
    assert [m1] + [m2] == [m1, m2];
  }

  /** Both are written to the client that was looked up for the first. */
  lemma BothArrive(s: State, key: Key, d: ClientId, m1: MqMsg, m2: MqMsg) returns (es: seq<Event>)
    requires key in s.queues && s.queues[key].messages == [m1, m2]
    requires s.queues[key].client.None? && s.queues[key].phase.Idle?
    requires Listed(s, d) && Subscribes(s.clients[d].peer, s.queues[key].topic, s.queues[key].tag)
    requires Quiet(s.clients[d]) && !s.clients[d].peer.stopSubscribe
    ensures IsRun(s, es)
    ensures var t := After(s, es);
      && d < |t.clients| && t.clients[d] == s.clients[d].(down := [m1, m2]) && t.log == s.log
  {
    hide IsRun, After, Subscribes;
    es := QueueGetsReady(s, key, d);
    es := Then(s, es, QueueWrites(key, Written));
    assert [m1, m2][1..] == [m2] && [] + [m1] == [m1] && [m1] + [m2] == [m1, m2];
    assert After(s, es).clients[d] == s.clients[d].(down := [m1]);
    es := NextWrite(s, es, key, d);
    es := Then(s, es, QueueWrites(key, Written));
  }

  /** The client executes the second. */
  lemma SecondExecutes(s: State, d: ClientId, m1: MqMsg, m2: MqMsg) returns (es: seq<Event>)
    requires d < |s.clients| && s.clients[d].down == [m1, m2]
    requires m2.typ == TypeCall && m2.topic != "Mq" && m2.tag != "*"
    ensures IsRun(s, es)
    ensures After(s, es).log == s.log.(executed := s.log.executed + {Execution(d, m2, NilStruct)})
  {
    hide IsRun, After;
    var n := s.clients[d].node;
    es := Then(s, [], ClientReads(d)) by { EmptyRun(s); }
    assert [m1, m2][1..] == [m2];
    var k := DoMqMsg(n, m1);
    assert After(s, es).clients[d] == s.clients[d].(node := k, down := [m2]) && After(s, es).log == s.log by {
      EmptyRun(s);
    }
    es := Then(s, es, ClientReads(d));
    assert After(s, es).clients[d].node.executing == k.executing + [m2];
    es := Then(s, es, HandlerReturns(d, |k.executing|, NilStruct));
  }

  lemma EmptyRun(s: State)
    ensures IsRun(s, []) && After(s, []) == s
  {
  }

  /** If some other pair gives the queue of a request its name, a client that was never registered for
      the request's topic can execute it: the queue was made for a request of the other pair. */
  lemma GoesAstray(topic: string, tag: string, other: string, own: string) returns (s: State, x: Execution)
    requires topic != "Mq" && tag != "*" && IsTopic(other) && other != topic
    requires KeyOf(topic, tag) == KeyOf(other, own)
    ensures Reachable(s) && x in s.log.executed && x.request.topic == topic && x.request.tag == tag
    ensures forall g :: g in s.log.granted && g.client == x.executor ==> g.topic != topic
  {
    var es := TwoHomes(other, "*");
    var s0 := After(INITIAL, es);
    assert Text.Trim("*", Text.BLANKS) == "*";
    hide IsRun, After, Text.Trim, Apply, Enabled, KeyOf;
    var n := s0.clients[0].node;
    var m1 := RequestOf(n, other, own, "", "", NilStruct);
    var m2 := RequestOf(BeginCall(n, m1), topic, tag, "", "", NilStruct);
    var fs := BothQueued(s0, 0, m1, m2);
    RunAppend(INITIAL, es, fs);
    es := es + fs;
    var s1 := After(INITIAL, es);
    assert s1.clients[1] == s0.clients[1];
    fs := BothArrive(s1, KeyOf(other, own), 1, m1, m2);
    RunAppend(INITIAL, es, fs);
    es := es + fs;
    fs := SecondExecutes(After(INITIAL, es), 1, m1, m2);
    RunAppend(INITIAL, es, fs);
    s := After(INITIAL, es + fs);
    x := Execution(1, m2, NilStruct);
    assert s.log.granted == s0.log.granted == {GrantOf(0, "", ""), GrantOf(1, other, "*")};
  }

  /** Exactly which requests only reach subscribers of their own topic and tag: those whose queue name
      can be read in one way. The others can be executed by a client of another topic. */
  lemma OwnSubscribersIff(topic: string, tag: string)
    ensures OwnSubscribersOnly(topic, tag) <==> topic == "Mq" || tag == "*" || !Ambiguous(topic, tag)
  {
    if topic == "Mq" || tag == "*" || !Ambiguous(topic, tag) {
      UnambiguousIsSafe(topic, tag);
    } else {
      var name := topic + "_" + tag;
      var i :| 0 <= i < |name| && i != |topic| && name[i] == '_' && IsTopic(name[..i]);
      var other, own := name[..i], name[i + 1..];
      assert other + "_" + own == name;
      var s, x := GoesAstray(topic, tag, other, own);
      assert !GrantedFor(s.log, x.executor, topic, tag);
    }
  }
}
