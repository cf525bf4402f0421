/**
  The objects of skpPublic/skpSocket/skpManage.go: an agent per server holds its sockets, a parent
  map finds the agent of a server id, and 100 child maps remember what the parent answered. Every
  method is proved against the one table of skp_table.dfy.
 */
module SkpRegistry {
  import opened Bytes
  import opened SkpTable

  const SOCKET_LIST_MAX := 50
  const MANAGE_AGENT_LIST_MAX := 100

  /** `SkpRemoveSliceElement`: the elements behind `index` move down by one in place, and the slice
      loses its last place. */
  method RemoveSliceElement<T>(a: array<T>, index: nat)
    requires index < a.Length
    modifies a
    ensures a[..a.Length - 1] == old(a[..index]) + old(a[index + 1..])
  {
    var prev := index;
    for i := index + 1 to a.Length
      invariant prev == i - 1
      invariant forall k :: 0 <= k < index ==> a[k] == old(a[k])
      invariant forall k :: index <= k < prev ==> a[k] == old(a[k + 1])
      invariant forall k :: i <= k < a.Length ==> a[k] == old(a[k])
    {
      a[prev] := a[i];
      prev := i;
    }
  }

  // ---------- The sockets of one server ----------

  class Agent {
    var sockets: seq<TcpSocket>
    var isListerClose: bool

    constructor ()
      ensures sockets == [] && !isListerClose
    {
      sockets, isListerClose := [], false;
    }

    method ListerClose()
      modifies `isListerClose
      ensures isListerClose
    {
      isListerClose := true;
    }

    method Add(conn: TcpSocket) returns (ok: bool)
      modifies `sockets
      ensures ok == !isListerClose
      ensures sockets == if ok then old(sockets) + [conn] else old(sockets)
    {
      if isListerClose {
        return false;
      }
      sockets := sockets + [conn];
      ok := true;
    }

    method Del(conn: TcpSocket)
      modifies `sockets
      ensures sockets == Without(old(sockets), conn)
    {
      var index := 0;
      while index < |sockets|
        invariant 0 <= index <= |sockets| && conn !in sockets[..index]
      {
        if sockets[index] == conn {
          break;
        }
        index := index + 1;
      }
      if index == |sockets| {
        assert sockets[..index] == sockets;
        return;
      }
      WithoutAt(sockets, conn, index);
      var a := new TcpSocket[|sockets|](i requires 0 <= i < |sockets| reads this => sockets[i]);
      assert a[..] == sockets;
      RemoveSliceElement(a, index);
      sockets := a[..a.Length - 1];
    }

    /** `SkpGetTcpSocket`; `rand` stands for the random source. */
    method Get(addr: nat, rand: nat) returns (c: TcpSocket?)
      ensures c == Chosen(sockets, addr, rand)
    {
      if |sockets| == 0 {
        return null;
      }
      if addr == 0 {
        return sockets[rand % |sockets|];
      }
      var i := 0;
      while i < |sockets|
        invariant 0 <= i <= |sockets|
        invariant FirstWith(sockets, addr) == FirstWith(sockets[i..], addr)
      {
        if sockets[i].addrSocket == addr {
          return sockets[i];
        }
        i := i + 1;
      }
      c := sockets[0];
    }

    /** The list is copied and emptied, then every socket is asked to close. */
    method CloseAll()
      modifies `sockets, set c | c in sockets :: c`isCloseChan
      ensures sockets == []
      ensures forall c :: c in old(sockets) ==> c.isCloseChan
    {
      var copied := sockets;
      sockets := [];
      for i := 0 to |copied|
        invariant sockets == []
        invariant forall k :: 0 <= k < i ==> copied[k].isCloseChan
      {
        assert copied[i] in old(sockets);
        copied[i].CloseChan();
      }
    }
  }

  // ---------- The two levels of maps ----------

  class ManageAgent {
    const parent: ManageAgent?
    var serverIDMap: map<nat, Agent>

    constructor (parent: ManageAgent?)
      ensures this.parent == parent && serverIDMap == map[]
    {
      this.parent, serverIDMap := parent, map[];
    }

    /** At most two levels; what this one remembers is what its parent has. */
    ghost predicate Agrees()
      reads `serverIDMap, (if parent == null then {} else {parent})`serverIDMap
    {
      parent != null ==>
        && parent != this && parent.parent == null
        && forall id :: id in serverIDMap ==> id in parent.serverIDMap && parent.serverIDMap[id] == serverIDMap[id]
    }

    ghost function TopMap(): map<nat, Agent>
      reads `serverIDMap, (if parent == null then {} else {parent})`serverIDMap
    {
      if parent == null then serverIDMap else parent.serverIDMap
    }

    /** `SkpGetTcpSocketAgentForMap`: the agent of the server, made by the parent on first use. */
    method GetAgent(id: nat) returns (a: Agent)
      requires Agrees()
      modifies `serverIDMap, (if parent == null then {} else {parent})`serverIDMap
      ensures Agrees()
      ensures serverIDMap == old(serverIDMap)[id := a]
      ensures TopMap() == old(TopMap())[id := a]
      ensures id in old(TopMap()) ==> a == old(TopMap())[id]
      ensures id !in old(TopMap()) ==> fresh(a) && a.sockets == [] && !a.isListerClose
      decreases parent != null
    {
      if id in serverIDMap {
        return serverIDMap[id];
      }
      if parent != null {
        a := parent.GetAgent(id);
      } else {
        a := new Agent();
      }
      serverIDMap := serverIDMap[id := a];
    }

    /** Every agent of the map, one after the other; `SkpCloseAllTcpSocket`. */
    method CloseAll()
      requires forall i, j :: i in serverIDMap && j in serverIDMap && i != j ==> serverIDMap[i] != serverIDMap[j]
      modifies (set id | id in serverIDMap :: serverIDMap[id])`sockets
      modifies (set id, c | id in serverIDMap && c in serverIDMap[id].sockets :: c)`isCloseChan
      ensures forall id :: id in serverIDMap ==> serverIDMap[id].sockets == []
      ensures forall id, c :: id in serverIDMap && c in old(serverIDMap[id].sockets) ==> c.isCloseChan
    {
      var left := serverIDMap.Keys;
      while left != {}
        invariant left <= serverIDMap.Keys
        invariant forall id :: id in serverIDMap ==>
          serverIDMap[id].sockets == if id in left then old(serverIDMap[id].sockets) else []
        invariant forall id, c :: id in serverIDMap && id !in left && c in old(serverIDMap[id].sockets) ==>
          c.isCloseChan
      {
        var id :| id in left;
        serverIDMap[id].CloseAll();
        left := left - {id};
      }
    }

    method ListerClose()
      modifies (set id | id in serverIDMap :: serverIDMap[id])`isListerClose
      ensures forall id :: id in serverIDMap ==> serverIDMap[id].isListerClose
    {
      var left := serverIDMap.Keys;
      while left != {}
        invariant left <= serverIDMap.Keys
        invariant forall id :: id in serverIDMap && id !in left ==> serverIDMap[id].isListerClose
      {
        var id :| id in left;
        serverIDMap[id].ListerClose();
        left := left - {id};
      }
    }
  }

  class Manage {
    const manageAgent: ManageAgent
    const manageAgents: seq<ManageAgent>

    /** The shards are 100 distinct children of the one parent. */
    ghost predicate Wired() {
      && |manageAgents| == MANAGE_AGENT_LIST_MAX && manageAgent.parent == null
      && (forall i :: 0 <= i < |manageAgents| ==>
            manageAgents[i].parent == manageAgent && manageAgents[i] != manageAgent)
      && (forall i, j :: 0 <= i < j < |manageAgents| ==> manageAgents[i] != manageAgents[j])
    }

    /** A shard knows only ids of its remainder, and the parent's agent for each; different ids have
        different agents. */
    ghost predicate Valid()
      reads manageAgent`serverIDMap, (set m | m in manageAgents)`serverIDMap
    {
      && Wired()
      && (forall i, id :: 0 <= i < |manageAgents| && id in manageAgents[i].serverIDMap ==>
          id % MANAGE_AGENT_LIST_MAX == i)
      && (forall i, id :: 0 <= i < |manageAgents| && id in manageAgents[i].serverIDMap ==>
          id in manageAgent.serverIDMap && manageAgent.serverIDMap[id] == manageAgents[i].serverIDMap[id])
      && (forall i, j :: i in manageAgent.serverIDMap && j in manageAgent.serverIDMap && i != j ==>
          manageAgent.serverIDMap[i] != manageAgent.serverIDMap[j])
    }

    ghost function Agents(): set<Agent>
      reads manageAgent`serverIDMap
    {
      set id | id in manageAgent.serverIDMap :: manageAgent.serverIDMap[id]
    }

    /** The one table that parent, children and agents together represent. */
    ghost function View(): Table
      reads manageAgent`serverIDMap, Agents()`sockets, Agents()`isListerClose
    {
      map id | id in manageAgent.serverIDMap ::
        Entry(manageAgent.serverIDMap[id].sockets, manageAgent.serverIDMap[id].isListerClose)
    }

    constructor ()
      ensures Valid() && View() == map[] && |manageAgents| == 100
      ensures fresh(manageAgent) && forall m :: m in manageAgents ==> fresh(m)
    {
      var top := new ManageAgent(null);
      var agents: seq<ManageAgent> := [];
      for i := 0 to MANAGE_AGENT_LIST_MAX
        invariant |agents| == i && top.serverIDMap == map[] && top.parent == null
        invariant forall m :: m in agents ==> fresh(m) && m != top && m.parent == top && m.serverIDMap == map[]
        invariant forall j, k :: 0 <= j < k < i ==> agents[j] != agents[k]
      {
        var m := new ManageAgent(top);
        agents := agents + [m];
      }
      manageAgent, manageAgents := top, agents;
    }

    /** `SkpGetManageAgent` and `SkpGetTcpSocketAgentForMap`. */
    method GetAgent(id: nat) returns (a: Agent)
      requires Valid()
      modifies manageAgent`serverIDMap, (set m | m in manageAgents)`serverIDMap
      ensures Valid()
      ensures manageAgent.serverIDMap == old(manageAgent.serverIDMap)[id := a]
      ensures a in old(Agents()) || fresh(a)
      ensures View() == Known(old(View()), id)
    {
      a := Locate(id);
      assert id in old(manageAgent.serverIDMap) ==> a in old(Agents());
    }

    method Locate(id: nat) returns (a: Agent)
      requires Valid()
      modifies manageAgent`serverIDMap, (set m | m in manageAgents)`serverIDMap
      ensures Valid()
      ensures manageAgent.serverIDMap == old(manageAgent.serverIDMap)[id := a]
      ensures id in old(manageAgent.serverIDMap) ==> a == old(manageAgent.serverIDMap)[id]
      ensures id !in old(manageAgent.serverIDMap) ==> fresh(a) && a.sockets == [] && !a.isListerClose
    {
      var shard := manageAgents[id % MANAGE_AGENT_LIST_MAX];
      a := shard.GetAgent(id);
      assert forall m :: m in manageAgents && m != shard ==> m.serverIDMap == old(m.serverIDMap);
    }

    method Add(id: nat, conn: TcpSocket) returns (ok: bool)
      requires Valid()
      modifies manageAgent`serverIDMap, (set m | m in manageAgents)`serverIDMap, Agents()`sockets
      ensures Valid() && View() == Added(old(View()), id, conn)
      ensures ok == !Known(old(View()), id)[id].closing
    {
      var a := GetAgent(id);
      ghost var known := View();
      assert forall j :: j in manageAgent.serverIDMap && j != id ==> manageAgent.serverIDMap[j] != a;
      ok := a.Add(conn);
      assert View() == known[id := Entry(a.sockets, a.isListerClose)];
    }

    method Del(id: nat, conn: TcpSocket)
      requires Valid()
      modifies manageAgent`serverIDMap, (set m | m in manageAgents)`serverIDMap, Agents()`sockets
      ensures Valid() && View() == Deleted(old(View()), id, conn)
    {
      hide Without;
      var a := GetAgent(id);
      ghost var known := View();
      ghost var rest := Without(a.sockets, conn);
      a.Del(conn);
      assert View() == known[id := Entry(rest, a.isListerClose)];
    }

    method Get(id: nat, addr: nat, rand: nat) returns (c: TcpSocket?)
      requires Valid()
      modifies manageAgent`serverIDMap, (set m | m in manageAgents)`serverIDMap
      ensures Valid() && View() == Known(old(View()), id)
      ensures c == Chosen(View()[id].sockets, addr, rand)
    {
      var a := GetAgent(id);
      c := a.Get(addr, rand);
    }

    /** `SkpGetTcpSocketMaxForMap`: an existing connection is reused only when there are many. */
    method GetMax(id: nat, addr: nat, rand: nat) returns (c: TcpSocket?)
      requires Valid()
      modifies manageAgent`serverIDMap, (set m | m in manageAgents)`serverIDMap
      ensures Valid() && View() == Known(old(View()), id)
      ensures c == if |View()[id].sockets| < 50 then null else Chosen(View()[id].sockets, addr, rand)
    {
      var a := GetAgent(id);
      if |a.sockets| < SOCKET_LIST_MAX {
        return null;
      }
      c := a.Get(addr, rand);
    }

    method CloseAll()
      requires Valid()
      modifies Agents()`sockets, (set a, c | a in Agents() && c in a.sockets :: c)`isCloseChan
      ensures Valid() && View() == Emptied(old(View()))
      ensures forall id, c :: id in old(View()) && c in old(View())[id].sockets ==> c.isCloseChan
    {
      manageAgent.CloseAll();
    }

    method ListerClose()
      requires Valid()
      modifies Agents()`isListerClose
      ensures Valid() && View() == Closing(old(View()))
    {
      manageAgent.ListerClose();
    }

    /** `SkpServer`: the data goes to the server's socket with that address, if any. */
    method Server(id: nat, data: seq<Byte>, addr: nat, rand: nat) returns (ghost c: TcpSocket?)
      requires Valid()
      modifies manageAgent`serverIDMap, (set m | m in manageAgents)`serverIDMap
      modifies (set a, s | a in Agents() && s in a.sockets :: s)`queued
      ensures Valid() && View() == Known(old(View()), id)
      ensures c == Chosen(View()[id].sockets, addr, rand)
      ensures c != null ==> c.queued == if c.isCloseChan then old(c.queued) else old(c.queued) + [data]
      ensures forall a, s :: a in old(Agents()) && s in old(a.sockets) && s != c ==> s.queued == old(s.queued)
    {
      var found := Get(id, addr, rand);
      c := found;
      if found != null {
        ChosenIn(View()[id].sockets, addr, rand);
        var ok := found.WriteChan(data);
      }
    }
  }
}
