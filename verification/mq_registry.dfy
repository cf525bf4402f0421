/**
  The broker's registry (skynet_go/mq/server): clients are indexed by instance name, by harbor
  and by topic, and within a topic no two clients may subscribe to the same tag. The object that
  the source calls `Client` (server side), its topic table and the three indexes are classes.

  The source never allocates `Client.tagMap`; the model allocates it, as `Subscribe` intends.
 */
module MqRegistry {
  import opened Options
  import Text

  /** The bits of `Client.state`. */
  datatype Bit = Start | Err | StopSubscribe | Stopping | Stop

  type Conn = nat

  /** The topic, tag and tags that `Subscribe` stores for a request. */
  function Tags(tag: string): seq<string> {
    if tag == "*" then [] else Text.Split(tag, "||")
  }

  class Client {
    var state: set<Bit>
    var conn: Conn
    var harbor: nat
    var instance: string
    var topic: string
    var tag: string
    var tags: seq<string>
    var tagMap: map<string, bool>

    constructor (conn: Conn)
      ensures state == {Start} && this.conn == conn && Unregistered()
    {
      state, this.conn, harbor := {Start}, conn, 0;
      instance, topic, tag, tags, tagMap := "", "", "", [], map[];
    }

    /** As a client is before it registers. */
    ghost predicate Unregistered()
      reads `harbor, `instance, `tags, `tagMap
    {
      harbor == 0 && instance == "" && tags == [] && tagMap == map[]
    }

    /** `tags` and `tagMap` are what one call of `Subscribe` leaves. */
    ghost predicate Subscribed()
      reads `tag, `tags, `tagMap
    {
      && tags == Tags(tag)
      && (forall t :: t in tagMap <==> t in tags)
      && (forall t :: t in tagMap ==> tagMap[t])
    }

    predicate IsSubscribe(t: string)
      reads `tag, `tagMap
    {
      tag == "*" || (t in tagMap && tagMap[t])
    }

    /** The tags of the request are added to the map; for `*` map and tags stay as they are. */
    method Subscribe(topic: string, tag: string)
      modifies `topic, `tag, `tags, `tagMap
      ensures this.topic == Text.Trim(topic, Text.BLANKS) && this.tag == Text.Trim(tag, Text.BLANKS)
      ensures tags == if this.tag == "*" then old(tags) else Tags(this.tag)
      ensures this.tag == "*" ==> tagMap == old(tagMap)
      ensures this.tag != "*" ==> forall t :: t in tagMap <==> t in old(tagMap) || t in tags
      ensures this.tag != "*" ==> forall t :: t in tagMap ==> tagMap[t] == (t in tags || old(tagMap)[t])
      ensures old(tags) == [] && old(tagMap) == map[] ==> Subscribed()
    {
      this.topic := Text.Trim(topic, Text.BLANKS);
      this.tag := Text.Trim(tag, Text.BLANKS);
      if this.tag == "*" {
        return;
      }
      tags := Text.Split(this.tag, "||");
      var n := |tags|;
      for i := 0 to n
        invariant this.topic == Text.Trim(topic, Text.BLANKS) && this.tag == Text.Trim(tag, Text.BLANKS)
        invariant tags == Tags(this.tag) && n == |tags|
        invariant forall t :: t in tagMap <==> t in old(tagMap) || t in tags[..i]
        invariant forall t :: t in tagMap ==> tagMap[t] == (t in tags[..i] || old(tagMap)[t])
      {
        tagMap := tagMap[tags[i] := true];
      }
      assert tags[..|tags|] == tags;
    }

    /** `Error`, which holds the client's mutex, up to the question whether to tear down. */
    method Error(conn: Conn) returns (teardown: bool)
      modifies `state
      ensures (state, teardown) == AfterError(old(state), conn == this.conn)
    {
      if Down(state) || conn != this.conn {
        return false;
      }
      state := state - {Start} + {Err};
      return true;
    }
  }

  predicate Down(state: set<Bit>) {
    Stopping in state || Stop in state || Err in state
  }

  /** `IsError` on the state bits; `current` says that the report is about the client's connection. */
  function AfterError(state: set<Bit>, current: bool): (set<Bit>, bool) {
    if Down(state) || !current then (state, false)
    else (state - {Start} + {Err}, true)
  }

  /** The state bits after a sequence of error reports. */
  function StateAfter(state: set<Bit>, reports: seq<bool>): set<Bit>
    decreases |reports|
  {
    if reports == [] then state else StateAfter(AfterError(state, reports[0]).0, reports[1..])
  }

  /** How many of a sequence of error reports start a teardown. */
  function Teardowns(state: set<Bit>, reports: seq<bool>): nat
    decreases |reports|
  {
    if reports == [] then 0 else
    var (next, teardown) := AfterError(state, reports[0]);
    (if teardown then 1 else 0) + Teardowns(next, reports[1..])
  }

  /** However many producers and consumers report errors, in whatever order they get the mutex,
      teardown starts once, and only when a report is about the current connection of a client
      that is neither stopping nor stopped nor already failed. It takes Start away and sets Err. */
  lemma {:induction false} TeardownOnce(state: set<Bit>, reports: seq<bool>)
    ensures var tears := Stopping !in state && Stop !in state && Err !in state && true in reports;
      && Teardowns(state, reports) == (if tears then 1 else 0)
      && StateAfter(state, reports) == (if tears then state - {Start} + {Err} else state)
    decreases |reports|
  {
    if reports != [] {
      var (next, _) := AfterError(state, reports[0]);
      TeardownOnce(next, reports[1..]);
      assert reports == [reports[0]] + reports[1..];
    }
  }

  // ---------- The clients of one topic ----------

  /** Some client of the table matches one of the tags; for `*`, the table has a client at all. */
  ghost predicate Taken(m: map<nat, Client>, tag: string)
    reads m.Values`tag, m.Values`tagMap
  {
    (tag == "*" && m != map[]) || exists h, t :: h in m && t in Tags(tag) && m[h].IsSubscribe(t)
  }

  /** Two subscriptions to one topic have a tag in common. */
  ghost predicate Overlap(a: string, b: string) {
    a == "*" || b == "*" || exists t :: t in Text.Split(a, "||") && t in Text.Split(b, "||")
  }

  /** Clients match the tags between the bars of their subscription, or all. */
  lemma SubscribedMeans(c: Client, t: string)
    requires c.Subscribed()
    ensures c.IsSubscribe(t) <==> c.tag == "*" || t in Text.Split(c.tag, "||")
  {
  }

  /** Some tag is matched by both exactly if their subscriptions overlap. */
  lemma OverlapIff(c: Client, d: Client)
    requires c.Subscribed() && d.Subscribed()
    ensures (exists t :: c.IsSubscribe(t) && d.IsSubscribe(t)) <==> Overlap(c.tag, d.tag)
  {
    if Overlap(c.tag, d.tag) {
      var t := if c.tag == "*" then (if d.tag == "*" then "" else Text.Split(d.tag, "||")[0])
               else if d.tag == "*" then Text.Split(c.tag, "||")[0]
               else var t :| t in Text.Split(c.tag, "||") && t in Text.Split(d.tag, "||"); t;
      assert c.IsSubscribe(t) && d.IsSubscribe(t);
    }
  }

  /** A subscription is refused exactly if it overlaps with one that the topic already has. */
  lemma TakenIff(m: map<nat, Client>, tag: string)
    requires forall h :: h in m ==> m[h].Subscribed()
    ensures Taken(m, tag) <==> exists h :: h in m && Overlap(tag, m[h].tag)
  {
    if h :| h in m && Overlap(tag, m[h].tag) {
      if tag != "*" {
        var t := if m[h].tag == "*" then Text.Split(tag, "||")[0]
                 else var t :| t in Text.Split(tag, "||") && t in Text.Split(m[h].tag, "||"); t;
        assert t in Tags(tag) && m[h].IsSubscribe(t);
      }
    }
    if Taken(m, tag) {
      if tag == "*" {
        var h :| h in m;
        assert Overlap(tag, m[h].tag);
      } else {
        var h, t :| h in m && t in Tags(tag) && m[h].IsSubscribe(t);
        assert Overlap(tag, m[h].tag);
      }
    }
  }

  class TopicClients {
    var harborClient: map<nat, Client>

    constructor ()
      ensures harborClient == map[]
    {
      harborClient := map[];
    }

    /** No tag is matched by two clients. */
    ghost predicate Exclusive()
      reads this, harborClient.Values`tag, harborClient.Values`tagMap
    {
      forall h, k, t :: h in harborClient && k in harborClient && h != k ==>
        !(harborClient[h].IsSubscribe(t) && harborClient[k].IsSubscribe(t))
    }

    /** Adds the client unless one of its tags is taken. */
    method IsOk(c: Client) returns (ok: bool)
      requires c.Subscribed() && c.harbor !in harborClient && Exclusive()
      modifies this
      ensures ok <==> !old(Taken(harborClient, c.tag))
      ensures harborClient == if ok then old(harborClient)[c.harbor := c] else old(harborClient)
      ensures Exclusive()
    {
      if c.tag == "*" && |harborClient| > 0 {
        assert harborClient != map[];
        return false;
      }
      var todo := harborClient.Keys;
      while todo != {}
        invariant todo <= harborClient.Keys && harborClient == old(harborClient)
        invariant forall h, t :: h in harborClient && h !in todo && t in c.tags ==> !harborClient[h].IsSubscribe(t)
        decreases |todo|
      {
        var h :| h in todo;
        for i := 0 to |c.tags|
          invariant forall t :: t in c.tags[..i] ==> !harborClient[h].IsSubscribe(t)
        {
          if harborClient[h].IsSubscribe(c.tags[i]) {
            assert c.tags[i] in c.tags;
            return false;
          }
        }
        assert c.tags[..|c.tags|] == c.tags;
        todo := todo - {h};
      }
      ghost var before := harborClient;
      harborClient := harborClient[c.harbor := c];
      ok := true;
      AddKeepsExclusive(before, c);
    }

    /** A client whose tags nobody matches can be added. */
    lemma AddKeepsExclusive(before: map<nat, Client>, c: Client)
      requires c.Subscribed() && c.harbor !in before && harborClient == before[c.harbor := c]
      requires c.tag == "*" ==> before == map[]
      requires forall h, t :: h in before && t in c.tags ==> !before[h].IsSubscribe(t)
      requires forall h, k, t :: h in before && k in before && h != k ==>
        !(before[h].IsSubscribe(t) && before[k].IsSubscribe(t))
      ensures Exclusive()
    {
    }

    /** `h` is the only client that matches the tag. */
    ghost predicate IsAnswer(h: nat, t: string)
      reads this, harborClient.Values`tag, harborClient.Values`tagMap
    {
      && h in harborClient && harborClient[h].IsSubscribe(t)
      && forall k :: k in harborClient && harborClient[k].IsSubscribe(t) ==> k == h
    }

    /** The answer does not depend on the order in which the map is traversed. */
    method GetClient(t: string) returns (r: Client?)
      requires Exclusive()
      ensures r == null <==> forall h :: h in harborClient ==> !harborClient[h].IsSubscribe(t)
      ensures r != null ==> exists h :: IsAnswer(h, t) && harborClient[h] == r
    {
      var todo := harborClient.Keys;
      while todo != {}
        invariant todo <= harborClient.Keys
        invariant forall h :: h in harborClient && h !in todo ==> !harborClient[h].IsSubscribe(t)
        decreases |todo|
      {
        var h :| h in todo;
        if harborClient[h].IsSubscribe(t) {
          assert IsAnswer(h, t);
          return harborClient[h];
        }
        todo := todo - {h};
      }
      return null;
    }

    method Del(harbor: nat)
      requires Exclusive()
      modifies this
      ensures harborClient == old(harborClient) - {harbor}
      ensures Exclusive()
    {
      harborClient := harborClient - {harbor};
    }
  }

  // ---------- The broker ----------

  type TopicIndex = map<string, map<nat, Client>>

  /** The index with a table, perhaps still an empty one, for the topic. */
  function WithTable(topics: TopicIndex, topic: string): TopicIndex {
    if topic in topics then topics else topics[topic := map[]]
  }

  function Added(topics: TopicIndex, topic: string, harbor: nat, c: Client): TopicIndex {
    var all := WithTable(topics, topic);
    var table: map<nat, Client> := all[topic] + map[harbor := c];
    all[topic := table]
  }

  function Removed(topics: TopicIndex, topic: string, harbor: nat): TopicIndex {
    if topic in topics then topics[topic := topics[topic] - {harbor}] else topics
  }

  function Entry(topics: TopicIndex, topic: string, harbor: nat): Option<Client> {
    if topic in topics && harbor in topics[topic] then Some(topics[topic][harbor]) else None
  }

  /** Adding a client changes its own entry and no other; removing it takes that entry away. */
  lemma EntriesAfter(topics: TopicIndex, topic: string, harbor: nat, c: Client, t: string, h: nat)
    ensures Entry(Added(topics, topic, harbor, c), t, h) ==
      if t == topic && h == harbor then Some(c) else Entry(topics, t, h)
    ensures Entry(Removed(topics, topic, harbor), t, h) ==
      if t == topic && h == harbor then None else Entry(topics, t, h)
    ensures Entry(WithTable(topics, topic), t, h) == Entry(topics, t, h) && topic in WithTable(topics, topic)
  {
  }

  lemma MinusSame(m: map<string, Client>, i: string)
    ensures m - {i} == m <==> i !in m
  {
    assert i in m ==> i !in m - {i};
  }

  class Server {
    var harbor: nat
    var instanceClient: map<string, Client>
    var harborClient: map<nat, Client>
    var topicClients: map<string, TopicClients>
    ghost var tables: set<TopicClients>     // the objects in topicClients
    ghost var clients: set<Client>          // every client that has tried to register

    /** Each topic has a table of its own. */
    ghost predicate TablesDiffer()
      reads `topicClients, `tables
    {
      && (forall t :: t in topicClients ==> topicClients[t] in tables)
      && (forall t, u :: t in topicClients && u in topicClients && t != u ==> topicClients[t] != topicClients[u])
    }

    /** The topic index with the contents of its tables. */
    ghost function Topics(): TopicIndex
      requires TablesDiffer()
      reads `topicClients, `tables, tables
    {
      map t | t in topicClients :: topicClients[t].harborClient
    }

    ghost predicate TableOk(t: string)
      requires TablesDiffer() && t in topicClients
      reads `topicClients, `tables, `clients, tables
      reads clients`harbor, clients`topic, clients`tag, clients`tagMap
    {
      var m := topicClients[t].harborClient;
      && (forall h :: h in m ==> m[h] in clients && m[h].harbor == h && m[h].topic == t)
      && topicClients[t].Exclusive()
    }

    ghost predicate TablesOk()
      reads `topicClients, `tables, `clients, tables
      reads clients`harbor, clients`topic, clients`tag, clients`tagMap
    {
      TablesDiffer() && forall t :: t in topicClients ==> TableOk(t)
    }

    ghost predicate IndexesOk()
      reads `harbor, `instanceClient, `harborClient, `clients
      reads clients`harbor, clients`instance, clients`tag, clients`tags, clients`tagMap
    {
      && (forall c :: c in clients ==> c.Subscribed() && 0 < c.harbor <= harbor)
      && (forall c, d :: c in clients && d in clients && c != d ==> c.harbor != d.harbor)
      && (forall h :: h in harborClient ==> harborClient[h] in clients && harborClient[h].harbor == h)
      && (forall i :: i in instanceClient ==>
            i != "" && instanceClient[i] in clients && instanceClient[i].instance == i)
    }

    ghost predicate Valid()
      reads this, tables
      reads clients`harbor, clients`instance, clients`topic, clients`tag, clients`tags, clients`tagMap
    {
      IndexesOk() && TablesOk()
    }

    constructor ()
      ensures Valid() && harbor == 0 && clients == {} && tables == {}
      ensures instanceClient == map[] && harborClient == map[] && Topics() == map[]
    {
      harbor, instanceClient, harborClient, topicClients := 0, map[], map[], map[];
      tables, clients := {}, {};
    }

    method OnMqDel(c: Client)
      requires Valid()
      modifies this`instanceClient, this`harborClient, tables
      ensures Valid()
      ensures instanceClient == old(instanceClient) - {c.instance}
      ensures harborClient == old(harborClient) - {c.harbor}
      ensures Topics() == Removed(old(Topics()), c.topic, c.harbor)
    {
      hide IndexesOk, TableOk, TablesDiffer, Removed;
      DelFromTable(c.topic, c.harbor);
      DropIndexes(c.instance, c.harbor);
    }

    method DropIndexes(instance: string, h: nat)
      requires IndexesOk()
      modifies `instanceClient, `harborClient
      ensures IndexesOk()
      ensures instanceClient == old(instanceClient) - {instance}
      ensures harborClient == old(harborClient) - {h}
    {
      instanceClient := instanceClient - {instance};
      harborClient := harborClient - {h};
    }

    method DelFromTable(topic: string, harbor: nat)
      requires TablesOk()
      modifies tables
      ensures TablesOk()
      ensures Topics() == Removed(old(Topics()), topic, harbor)
    {
      if topic in topicClients {
        assert TableOk(topic);
        topicClients[topic].Del(harbor);
        forall t | t in topicClients ensures TableOk(t) {
          assert old(TableOk(t));
        }
      }
    }

    /** From now on the client's tags and harbor may not change. */
    ghost method Join(c: Client)
      requires Valid() && Newest(c) && c.Subscribed()
      modifies `clients
      ensures Valid() && clients == old(clients) + {c}
    {
      clients := clients + {c};
      forall t | t in topicClients ensures TableOk(t) {
        assert old(TableOk(t));
      }
    }

    method StoreIndexes(c: Client)
      requires IndexesOk() && c in clients && c.instance != ""
      modifies `instanceClient, `harborClient
      ensures IndexesOk()
      ensures instanceClient == old(instanceClient)[c.instance := c]
      ensures harborClient == old(harborClient)[c.harbor := c]
    {
      instanceClient := instanceClient[c.instance := c];
      harborClient := harborClient[c.harbor := c];
    }

    method MakeTable(topic: string)
      requires TablesOk() && topic !in topicClients
      modifies `topicClients, `tables
      ensures TablesOk() && fresh(tables - old(tables))
      ensures Topics() == old(Topics())[topic := map[]]
    {
      hide Client.IsSubscribe;
      var table := new TopicClients();
      assert forall t :: t in topicClients ==> TableOk(t);
      topicClients := topicClients[topic := table];
      tables := tables + {table};
      assert TablesDiffer();
      forall t | t in topicClients ensures TableOk(t) {
        assert t != topic ==> old(TableOk(t));
      }
    }

    method AddToTable(c: Client) returns (ok: bool)
      requires TablesOk() && c in clients && c.Subscribed() && c.topic in topicClients
      requires c.harbor !in topicClients[c.topic].harborClient
      modifies tables
      ensures TablesOk()
      ensures ok <==> !old(Taken(Topics()[c.topic], c.tag))
      ensures Topics() == if ok then Added(old(Topics()), c.topic, c.harbor, c) else old(Topics())
    {
      assert TableOk(c.topic);
      ghost var m: map<nat, Client> := topicClients[c.topic].harborClient;
      ok := topicClients[c.topic].IsOk(c);
      assert ok ==> topicClients[c.topic].harborClient == m + map[c.harbor := c];
      forall t | t in topicClients ensures TableOk(t) {
        assert old(TableOk(t));
      }
    }

    method AddToTopic(c: Client) returns (ok: bool)
      requires TablesOk() && c in clients && c.Subscribed()
      requires c.harbor !in WithTable(Topics(), c.topic)[c.topic]
      modifies `topicClients, `tables, tables
      ensures TablesOk() && fresh(tables - old(tables))
      ensures ok <==> !old(Taken(WithTable(Topics(), c.topic)[c.topic], c.tag))
      ensures Topics() == if ok then Added(old(Topics()), c.topic, c.harbor, c) else WithTable(old(Topics()), c.topic)
    {
      hide TableOk, TablesDiffer;
      if c.topic !in topicClients {
        MakeTable(c.topic);
      }
      ok := AddToTable(c);
    }

    /** OnMqRegister after the check of the instance name. */
    method Enter(c: Client) returns (ok: bool)
      requires Valid() && c in clients && c.Subscribed() && c.instance != ""
      requires c.harbor !in WithTable(Topics(), c.topic)[c.topic]
      modifies `instanceClient, `harborClient, `topicClients, `tables, tables
      ensures Valid() && fresh(tables - old(tables))
      ensures ok <==> !old(Taken(WithTable(Topics(), c.topic)[c.topic], c.tag))
      ensures instanceClient == old(instanceClient)[c.instance := c]
      ensures harborClient == old(harborClient)[c.harbor := c]
      ensures Topics() == if ok then Added(old(Topics()), c.topic, c.harbor, c) else WithTable(old(Topics()), c.topic)
    {
      ghost var m := WithTable(Topics(), c.topic)[c.topic];
      ghost var taken := Taken(m, c.tag);
      hide IndexesOk, TableOk, TablesDiffer, WithTable, Added, Taken, Client.Subscribed;
      StoreIndexes(c);
      assert Taken(m, c.tag) == taken && Topics() == old(Topics());
      ok := AddToTopic(c);
      assert IndexesOk();
    }

    /** The clients that have tried to register have smaller harbors than `c`. */
    ghost predicate Newest(c: Client)
      reads `harbor, `clients, clients`harbor, c`harbor
    {
      c !in clients && 0 < c.harbor <= harbor && forall d :: d in clients ==> d.harbor < c.harbor
    }

    method OnMqRegister(c: Client) returns (ok: bool)
      requires Valid() && Newest(c) && c.Subscribed() && c.instance != ""
      modifies `instanceClient, `harborClient, `topicClients, `tables, `clients, tables
      ensures Valid() && clients == old(clients) + {c} && fresh(tables - old(tables))
      ensures ok <==> c.instance !in old(instanceClient) && !old(Taken(WithTable(Topics(), c.topic)[c.topic], c.tag))
      ensures c.instance in old(instanceClient) ==>
        instanceClient == old(instanceClient) && harborClient == old(harborClient) && Topics() == old(Topics())
      ensures c.instance !in old(instanceClient) ==>
        && instanceClient == old(instanceClient)[c.instance := c]
        && harborClient == old(harborClient)[c.harbor := c]
        && Topics() == if ok then Added(old(Topics()), c.topic, c.harbor, c) else WithTable(old(Topics()), c.topic)
    {
      NotInTables(c);
      hide IndexesOk, TableOk, TablesOk, TablesDiffer, WithTable, Added, Taken, Tags, Client.IsSubscribe,
          TopicClients.Exclusive, Client.Subscribed, Newest;
      Join(c);
      assert Topics() == old(Topics());
      if c.instance in instanceClient {
        return false;
      }
      ok := Enter(c);
    }

    lemma NotInTables(c: Client)
      requires Valid() && Newest(c)
      ensures c.harbor !in WithTable(Topics(), c.topic)[c.topic]
    {
      if c.topic in topicClients {
        assert TableOk(c.topic);
      }
    }

    lemma Unlisted(h: nat, topic: string)
      requires Valid() && (h == 0 || forall d :: d in clients ==> d.harbor < h)
      ensures harborClient - {h} == harborClient && instanceClient - {""} == instanceClient
      ensures Removed(Topics(), topic, h) == Topics()
    {
      if topic in topicClients {
        assert TableOk(topic);
        assert Topics()[topic] - {h} == Topics()[topic];
      }
    }

    /** What OnMqDel takes away from indexes that hold the refused client. */
    lemma Undo(c: Client)
      requires Valid() && Newest(c)
      ensures Removed(Topics(), c.topic, c.harbor) == Topics()
      ensures Taken(WithTable(Topics(), c.topic)[c.topic], c.tag) ==> WithTable(Topics(), c.topic) == Topics()
      ensures harborClient - {c.harbor} == harborClient
      ensures harborClient[c.harbor := c] - {c.harbor} == harborClient
      ensures instanceClient[c.instance := c] - {c.instance} == instanceClient - {c.instance}
    {
      Unlisted(c.harbor, c.topic);
    }

    /** OnMqRegister, and when it refuses the `OnMqDel` of `CloseSelf`. */
    method Admit(c: Client) returns (ok: bool)
      requires Valid() && Newest(c) && c.Subscribed() && c.instance != ""
      modifies `instanceClient, `harborClient, `topicClients, `tables, `clients, tables
      ensures Valid() && clients == old(clients) + {c} && fresh(tables - old(tables))
      ensures ok <==> c.instance !in old(instanceClient) && !old(Taken(WithTable(Topics(), c.topic)[c.topic], c.tag))
      ensures ok ==>
        && instanceClient == old(instanceClient)[c.instance := c]
        && harborClient == old(harborClient)[c.harbor := c]
        && Topics() == Added(old(Topics()), c.topic, c.harbor, c)
      ensures !ok ==>
        && instanceClient == old(instanceClient) - {c.instance}
        && harborClient == old(harborClient) && Topics() == old(Topics())
    {
      Undo(c);
      hide IndexesOk, TablesOk, TableOk, TablesDiffer, Added, Taken, Newest, WithTable, Removed;
      ok := OnMqRegister(c);
      if !ok {
        OnMqDel(c);
      }
    }

    /** The request asks for a topic and tags that are taken. */
    ghost predicate Refuses(topic: string, tag: string)
      requires TablesOk()
      reads `topicClients, `tables, `clients, tables
      reads clients`harbor, clients`topic, clients`tag, clients`tagMap
    {
      var t := Text.Trim(topic, Text.BLANKS);
      assert t in topicClients ==> TableOk(t);
      Taken(WithTable(Topics(), t)[t], Text.Trim(tag, Text.BLANKS))
    }

    method GetHarbor() returns (h: nat)
      requires IndexesOk()
      modifies `harbor
      ensures IndexesOk() && h == harbor == old(harbor) + 1
      ensures forall d :: d in clients ==> d.harbor < harbor
    {
      harbor := harbor + 1;
      h := harbor;
    }

    method Assign(c: Client, instance: string, h: nat)
      requires Valid() && c !in clients && 0 < h <= harbor && forall d :: d in clients ==> d.harbor < h
      modifies c`harbor, c`instance
      ensures Valid() && Newest(c) && c.harbor == h && c.instance == instance
    {
      hide IndexesOk, TablesOk;
      c.harbor := h;
      c.instance := instance;
    }

    /** CloseSelf of a client that never registered. */
    method Forget(c: Client)
      requires Valid() && c.harbor == 0 && c.instance == ""
      modifies `instanceClient, `harborClient, tables
      ensures Valid() && Topics() == old(Topics())
      ensures instanceClient == old(instanceClient) && harborClient == old(harborClient)
    {
      Unlisted(0, c.topic);
      hide IndexesOk, TablesOk, TableOk, TablesDiffer, Removed;
      OnMqDel(c);
    }

    /** `Subscribe` for a client that the registry does not know yet. */
    method SubscribeNew(c: Client, topic: string, tag: string)
      requires Valid() && Newest(c) && c.tags == [] && c.tagMap == map[]
      modifies c`topic, c`tag, c`tags, c`tagMap, c`state
      ensures Valid() && Newest(c) && c.Subscribed() && c.state == {Stop}
      ensures c.topic == Text.Trim(topic, Text.BLANKS) && c.tag == Text.Trim(tag, Text.BLANKS)
      ensures old(Refuses(topic, tag)) == Taken(WithTable(Topics(), c.topic)[c.topic], c.tag)
    {
      ghost var t := Text.Trim(topic, Text.BLANKS);
      ghost var m := WithTable(Topics(), t)[t];
      assert c !in m.Values by { assert t in topicClients ==> TableOk(t); }
      hide TablesOk, IndexesOk, Taken, Tags, Client.IsSubscribe, TopicClients.Exclusive, Text.Trim;
      c.Subscribe(topic, tag);
      c.state := {Stop};
      assert Topics() == old(Topics()) && Taken(m, c.tag) == old(Refuses(topic, tag));
    }

    /** The assignments of the registration branch before the registry is asked. */
    method Introduce(c: Client, instance: string, topic: string, tag: string)
      requires Valid() && c !in clients && c.tags == [] && c.tagMap == map[]
      modifies `harbor, c
      ensures Valid() && Newest(c) && c.Subscribed()
      ensures c.conn == old(c.conn)
      ensures harbor == old(harbor) + 1 == c.harbor && c.instance == instance && c.state == {Stop}
      ensures c.topic == Text.Trim(topic, Text.BLANKS) && c.tag == Text.Trim(tag, Text.BLANKS)
      ensures old(Refuses(topic, tag)) == Taken(WithTable(Topics(), c.topic)[c.topic], c.tag)
    {
      hide IndexesOk, TablesOk, TableOk, TablesDiffer, Taken, Newest, WithTable, Refuses, Client.Subscribed;
      var h := GetHarbor();
      Assign(c, instance, h);
      SubscribeNew(c, topic, tag);
    }

    method RegisterNew(c: Client, instance: string, topic: string, tag: string) returns (granted: bool)
      requires Valid() && c !in clients && c.tags == [] && c.tagMap == map[] && instance != ""
      modifies this, tables, c
      ensures Valid() && fresh(tables - old(tables)) && c.conn == old(c.conn)
      ensures granted <==> instance !in old(instanceClient) && !old(Refuses(topic, tag))
      ensures granted ==>
        && c.harbor == harbor == old(harbor) + 1 && c.instance == instance && c.state == {Start}
        && c.topic == Text.Trim(topic, Text.BLANKS) && c.tag == Text.Trim(tag, Text.BLANKS) && c.Subscribed()
        && instanceClient == old(instanceClient)[instance := c]
        && harborClient == old(harborClient)[c.harbor := c]
        && Topics() == Added(old(Topics()), c.topic, c.harbor, c)
      ensures !granted ==>
        && instanceClient == old(instanceClient) - {instance}
        && harborClient == old(harborClient) && Topics() == old(Topics())
    {
      hide IndexesOk, TablesOk, TableOk, TablesDiffer, Added, Taken, Newest, WithTable, Refuses, Client.Subscribed;
      Introduce(c, instance, topic, tag);
      granted := Admit(c);
      if granted {
        c.state := {Start};
      }
    }

    /**
      The registration branch of `RegisterMqMsg` for a client that has not registered before,
      with the `OnMqDel` of `CloseSelf` when it is refused. A refused client leaves the harbor
      index and the topic index exactly as they were, and its name out of the instance index.
     */
    method Register(c: Client, instance: string, requestHarbor: nat, topic: string, tag: string) returns (granted: bool)
      requires Valid() && c !in clients && c.Unregistered()
      modifies this, tables, c
      ensures Valid() && fresh(tables - old(tables))
      ensures c.conn == old(c.conn)
      ensures granted <==>
        && instance != "" && requestHarbor == 0 && instance !in old(instanceClient)
        && !old(Refuses(topic, tag))
      ensures granted ==>
        && c.harbor == harbor == old(harbor) + 1 && c.instance == instance && c.state == {Start}
        && c.topic == Text.Trim(topic, Text.BLANKS) && c.tag == Text.Trim(tag, Text.BLANKS) && c.Subscribed()
        && instanceClient == old(instanceClient)[instance := c]
        && harborClient == old(harborClient)[c.harbor := c]
        && Topics() == Added(old(Topics()), c.topic, c.harbor, c)
      ensures !granted ==>
        && harborClient == old(harborClient) && Topics() == old(Topics())
        && instanceClient == if requestHarbor == 0 then old(instanceClient) - {instance} else old(instanceClient)
      ensures !granted && requestHarbor == 0 ==>
        (instanceClient == old(instanceClient) <==> instance !in old(instanceClient))
    {
      MinusSame(instanceClient, instance);
      hide Tags, Text.Trim, Client.IsSubscribe, TopicClients.Exclusive;
      if instance == "" || requestHarbor > 0 {
        Empty(instance);
        Forget(c);
        return false;
      }
      hide IndexesOk, TablesOk, TableOk, TablesDiffer, Added, Taken, Newest, WithTable, Refuses, Client.Subscribed;
      granted := RegisterNew(c, instance, topic, tag);
    }

    /** Two registered clients of one topic have no tag in common. */
    lemma NoSharedTag(topic: string, h: nat, k: nat)
      requires Valid() && topic in Topics() && h in Topics()[topic] && k in Topics()[topic] && h != k
      ensures !Overlap(Topics()[topic][h].tag, Topics()[topic][k].tag)
    {
      assert TableOk(topic);
      OverlapIff(Topics()[topic][h], Topics()[topic][k]);
    }

    lemma Empty(instance: string)
      requires Valid()
      ensures instance == "" ==> instance !in instanceClient
    {
    }

    method GetHarborClient(h: nat) returns (c: Client?)
      requires Valid()
      ensures if h in harborClient then c == harborClient[h] && c.harbor == h else c == null
    {
      c := if h in harborClient then harborClient[h] else null;
    }

    method GetClient(topic: string, tag: string) returns (c: Client?)
      requires Valid()
      ensures c == null <==>
        topic !in Topics() || forall h :: h in Topics()[topic] ==> !Topics()[topic][h].IsSubscribe(tag)
      ensures c != null ==>
        && c in clients && c.topic == topic && c.IsSubscribe(tag) && Entry(Topics(), topic, c.harbor) == Some(c)
        && forall h :: h in Topics()[topic] && Topics()[topic][h].IsSubscribe(tag) ==> h == c.harbor
    {
      if topic in topicClients {
        assert TableOk(topic);
        c := topicClients[topic].GetClient(tag);
      } else {
        c := null;
      }
    }

    /** `Client.Error` of a registered client: the first report takes it out of the indexes. */
    method ReportError(c: Client, conn: Conn)
      requires Valid()
      modifies c`state, `instanceClient, `harborClient, tables
      ensures Valid()
      ensures c.state == AfterError(old(c.state), conn == c.conn).0
      ensures AfterError(old(c.state), conn == c.conn).1 ==>
        && instanceClient == old(instanceClient) - {c.instance} && harborClient == old(harborClient) - {c.harbor}
        && Topics() == Removed(old(Topics()), c.topic, c.harbor)
      ensures !AfterError(old(c.state), conn == c.conn).1 ==>
        instanceClient == old(instanceClient) && harborClient == old(harborClient) && Topics() == old(Topics())
    {
      hide IndexesOk, TablesOk, Removed;
      var teardown := c.Error(conn);
      if teardown {
        OnMqDel(c);
      }
    }
  }

  // ---------- A queue producer ----------

  class SQProducer {
    const server: Server
    const topic: string
    const tag: string
    var client: Client?

    constructor (server: Server, topic: string, tag: string)
      ensures this.server == server && this.topic == topic && this.tag == tag && client == null
    {
      this.server, this.topic, this.tag, client := server, topic, tag, null;
    }

    /** A connection is only ever that of a started client whose subscription is not stopped; a
        client that has stopped is given up. */
    method GetConn() returns (conn: Option<Conn>)
      requires server.Valid()
      modifies `client
      ensures conn.Some? <==> client != null && Start in client.state && StopSubscribe !in client.state
      ensures conn.Some? ==> conn.value == client.conn
      ensures client != null ==> StopSubscribe !in client.state
      ensures old(client) == null && client != null ==>
        client in server.clients && client.topic == topic && client.IsSubscribe(tag)
      ensures old(client) == null ==>
        (client == null <==> forall h ::
          var c := Entry(server.Topics(), topic, h);
          c.Some? && c.value.IsSubscribe(tag) ==> StopSubscribe in c.value.state)
      ensures old(client) != null ==> client == if StopSubscribe in old(client).state then null else old(client)
    {
      if client == null {
        client := server.GetClient(topic, tag);
        if client == null {
          return None;
        }
        assert Entry(server.Topics(), topic, client.harbor) == Some(client);
      }
      if StopSubscribe in client.state {
        client := null;
        return None;
      }
      return if Start in client.state then Some(client.conn) else None;
    }

    method Error(conn: Conn)
      requires server.Valid() && client != null
      modifies `client, client`state, server`instanceClient, server`harborClient, server.tables
      ensures server.Valid() && client == null
      ensures old(client).state == AfterError(old(client.state), conn == old(client).conn).0
      ensures Start in old(client).state && conn == old(client).conn ==> Down(old(client).state)
      ensures var c := old(client); var failed := AfterError(old(client.state), conn == c.conn).1;
        && server.instanceClient == old(server.instanceClient) - (if failed then {c.instance} else {})
        && server.harborClient == old(server.harborClient) - (if failed then {c.harbor} else {})
        && server.Topics() == if failed then Removed(old(server.Topics()), c.topic, c.harbor) else old(server.Topics())
    {
      server.ReportError(client, conn);
      client := null;
    }
  }
}
