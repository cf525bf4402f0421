/**
  Where a frame goes: the proxy (skpProxy/server/skpTcpSocketProxy.go) and the route server
  (skpRoute/server/skpTcpSocketRoute.go), and the way back of an answer to the client's own socket.
 */
module SkpRoute {
  import opened Bytes
  import opened Options
  import opened SkpCodec
  import opened SkpTable
  import opened SkpRegistry
  import opened SkpStream
  import opened SkpAddrs
  import Text

  const ORDER_TYPE_REQUEST := 0
  const ORDER_TYPE_RESPONSE := 1
  const ORDER_TYPE_SERVER := 2
  const ORDER_MONITOR_LOAD_CONFIG := 1

  const TWO32 := 0x1_0000_0000

  /** What a server does with a frame: nothing; drop the connection; read the address list; send it
      on a connection to a server, made if need be; or hand it to a registered socket. */
  datatype Action = Ignore | Refuse | LoadList | Dial(serverID: nat) | Deliver(serverID: nat, addrSocket: nat)

  /** The server part of a 64-bit address: `(recv >> 32) & 0xFFFFFFFF`. */
  function ServerPart(recv: nat): nat {
    recv / TWO32 % TWO32
  }

  /** `SkpDataProxy`. */
  function ProxyAction(h: Head): Action {
    if h.orderType == ORDER_TYPE_REQUEST then Dial(ServerPart(h.recv))
    else if h.orderType == ORDER_TYPE_RESPONSE then
      if h.orderRequest == ORDER_MONITOR_LOAD_CONFIG then LoadList else Deliver(h.recv, h.addrSocket)
    else Ignore
  }

  /** `SkpDataRoute`. */
  function RouteAction(h: Head): Action {
    if h.orderType == ORDER_TYPE_REQUEST then Refuse
    else if h.orderType == ORDER_TYPE_RESPONSE then
      if h.orderRequest == ORDER_MONITOR_LOAD_CONFIG then LoadList else Dial(h.proxyID)
    else if h.orderType == ORDER_TYPE_SERVER then Dial(ServerPart(h.recv))
    else Ignore
  }

  /** The proxy's choice in bytes: byte 2 is the type, bytes 56 to 63 the order, bytes 16 to 23 the
      receiver with its server in the upper half. */
  lemma ProxyDispatch(frame: seq<Byte>)
    requires |frame| >= 72
    ensures ProxyAction(DecodeHead(frame)) ==
      if frame[2] == 0 then Dial(FromLittle(frame[20..24]))
      else if frame[2] != 1 then Ignore
      else if FromLittle(frame[56..64]) == 1 then LoadList
      else Deliver(FromLittle(frame[16..24]), FromLittle(frame[32..40]))
  {
    HeadLayout(frame);
    UpperHalf(frame, 16);
  }

  /** The route server's choice: it takes no requests, and sends answers to the proxy in bytes 24 to 27. */
  lemma RouteDispatch(frame: seq<Byte>)
    requires |frame| >= 72
    ensures RouteAction(DecodeHead(frame)) ==
      if frame[2] == 0 then Refuse
      else if frame[2] == 2 then Dial(FromLittle(frame[20..24]))
      else if frame[2] != 1 then Ignore
      else if FromLittle(frame[56..64]) == 1 then LoadList
      else Dial(FromLittle(frame[24..28]))
  {
    HeadLayout(frame);
    UpperHalf(frame, 16);
  }

  // ---------- The address list on its way ----------

  /** `SkpDataMonitor`: what the monitor sends back. */
  function MonitorAction(h: Head, serverID: nat, list: string): Option<Packet>
    requires Narrow(list)
  {
    if h.orderType == ORDER_TYPE_REQUEST && h.orderRequest == ORDER_MONITOR_LOAD_CONFIG
    then Some(Answer(serverID, h.orderRequest, list)) else None
  }

  /** What a server sends to the monitor when it starts. */
  function ListRequest(serverID: nat): Packet {
    Packet(Head(HEAD_SIZE, 0, 0, 0, serverID, serverID, 0, 0, 0, 0, 0, 0, 0, 1, 0), [])
  }

  /** From the request to the map: the monitor cuts the request from its stream and answers; proxy and
      route server cut the answer from theirs and read the list, after which they have the monitor's
      addresses besides their own. */
  lemma ListTravels(asker: nat, monitor: nat, t: map<nat, string>, m: map<nat, string>, keys: seq<nat>,
      more: seq<Byte>)
    requires asker < Pow256(4) && monitor < Pow256(4) && IsOrder(m, keys) && WellFiled(m)
    requires Narrow(Printed(m, keys)) && |Printed(m, keys)| < Pow256(4)
    ensures var q := ListRequest(asker).Bytes();
      && CheckHead(q + more) == Some(72) && |q| == 72
      && MonitorAction(DecodeHead(q), monitor, Printed(m, keys)) == Some(Answer(monitor, 1, Printed(m, keys)))
    ensures var a := Answer(monitor, 1, Printed(m, keys)).Bytes();
      && CheckHead(a + more) == Some(|a|)
      && ProxyAction(DecodeHead(a)) == RouteAction(DecodeHead(a)) == LoadList
      && Learn(t, Text.Split(FromBytes(a[72..]), ",")) == Some(t + m)
  {
    var p := ListRequest(asker);
    assert Pow256(1) == 256 && Pow256(2) == 65536 && Pow256(4) <= Pow256(8);
    PacketIsFrame(p, more);
    HeadRoundTrip(p.head, p.data);
    hide Learn, Printed, WellFiled, IsOrder, DecodeHead, CheckHead;
    AnswerCarriesList(monitor, 1, Printed(m, keys), more);
    ListArrives(t, m, keys);
  }

  /** The monitor answers nothing else. */
  lemma MonitorDispatch(frame: seq<Byte>, serverID: nat, list: string)
    requires |frame| >= 72 && Narrow(list)
    ensures MonitorAction(DecodeHead(frame), serverID, list).Some? <==>
      frame[2] == 0 && FromLittle(frame[56..64]) == 1
  {
    HeadLayout(frame);
  }

  // ---------- The way of a request and its answer ----------

  /** The way out. A request for client `low` of server `serverID` makes the proxy dial that server,
      before and after it wrote its own fields into the frame; the same frame sent on between servers
      makes the route server dial it; and a route server takes no requests. */
  lemma RequestFindsServer(frame: seq<Byte>, proxyID: nat, addrSocket: nat, serverID: nat, low: nat)
    requires |frame| >= HEAD_SIZE && proxyID < Pow256(4) && addrSocket < Pow256(8)
    requires serverID < TWO32 && low < TWO32 && DecodeHead(frame).recv == serverID * TWO32 + low
    ensures var h, sent := DecodeHead(frame), DecodeHead(Patched(frame, proxyID, addrSocket));
      && sent.orderType == h.orderType
      && (h.orderType == ORDER_TYPE_REQUEST ==>
            ProxyAction(h) == ProxyAction(sent) == Dial(serverID) && RouteAction(sent) == Refuse)
      && (h.orderType == ORDER_TYPE_SERVER ==> RouteAction(h) == RouteAction(sent) == Dial(serverID))
  {
    PatchMeetsCodec(frame, proxyID, addrSocket);
    assert (serverID * TWO32 + low) / TWO32 == serverID;
  }

  /** An answer that keeps what the proxy wrote into the request and names the client as receiver. */
  predicate Answers(request: seq<Byte>, answer: seq<Byte>, clientID: nat)
    requires |request| >= HEAD_SIZE && |answer| >= HEAD_SIZE
  {
    var q, a := DecodeHead(request), DecodeHead(answer);
    && a.proxyID == q.proxyID && a.addrSocket == q.addrSocket && a.recv == clientID
    && a.orderType == ORDER_TYPE_RESPONSE && a.orderRequest != ORDER_MONITOR_LOAD_CONFIG
  }

  /** The way back. `frame` came in on socket `c` of proxy `proxyID`, was patched and forwarded. The
      route server sends its answer to that proxy, which looks up the client's id and the socket's
      address; whatever happened in the registry in between, it finds `c` exactly if `c` is still
      registered under that id. */
  lemma AnswerComesBack(frame: seq<Byte>, answer: seq<Byte>, proxyID: nat, clientID: nat, c: TcpSocket, t: Table,
      ops: seq<Op>, rand: nat)
    requires |frame| >= HEAD_SIZE && |answer| >= HEAD_SIZE
    requires proxyID < Pow256(4) && 0 < c.addrSocket < Pow256(8)
    requires Answers(Patched(frame, proxyID, c.addrSocket), answer, clientID)
    requires clientID in After(t, ops) && DistinctAddrs(After(t, ops)[clientID].sockets)
    ensures RouteAction(DecodeHead(answer)) == Dial(proxyID)
    ensures ProxyAction(DecodeHead(answer)) == Deliver(clientID, c.addrSocket)
    ensures Chosen(After(t, ops)[clientID].sockets, c.addrSocket, rand) == c <==> c in After(t, ops)[clientID].sockets
  {
    PatchMeetsCodec(frame, proxyID, c.addrSocket);
    ChosenIsRight(After(t, ops)[clientID].sockets, c.addrSocket, rand);
  }

  /** In particular as long as the client's socket is neither deleted nor all sockets closed. */
  lemma AnswerComesBackUnlessClosed(frame: seq<Byte>, answer: seq<Byte>, proxyID: nat, clientID: nat, c: TcpSocket,
      t: Table, ops: seq<Op>, rand: nat)
    requires |frame| >= HEAD_SIZE && |answer| >= HEAD_SIZE
    requires proxyID < Pow256(4) && 0 < c.addrSocket < Pow256(8)
    requires Answers(Patched(frame, proxyID, c.addrSocket), answer, clientID)
    requires clientID in t && c in t[clientID].sockets
    requires forall i :: 0 <= i < |ops| ==> ops[i] != Delete(clientID, c) && ops[i] != CloseAll
    ensures clientID in After(t, ops)
    ensures DistinctAddrs(After(t, ops)[clientID].sockets) ==>
      && ProxyAction(DecodeHead(answer)) == Deliver(clientID, c.addrSocket)
      && Chosen(After(t, ops)[clientID].sockets, c.addrSocket, rand) == c
  {
    StaysListed(t, ops, clientID, c);
    if DistinctAddrs(After(t, ops)[clientID].sockets) {
      AnswerComesBack(frame, answer, proxyID, clientID, c, t, ops, rand);
    }
  }

  /** The proxy's side of it on the registry's objects: an answer is queued on the socket it belongs
      to, and on no other, unless that socket has been told to close. */
  method ProxyData(manage: Manage, frame: seq<Byte>, rand: nat) returns (action: Action, ghost c: TcpSocket?)
    requires manage.Valid() && CheckHead(frame).Some?
    modifies manage.manageAgent`serverIDMap, (set m | m in manage.manageAgents)`serverIDMap
    modifies (set a, s | a in manage.Agents() && s in a.sockets :: s)`queued
    ensures manage.Valid() && action == ProxyAction(DecodeHead(frame))
    ensures action.Deliver? ==>
      && manage.View() == Known(old(manage.View()), action.serverID)
      && c == Chosen(manage.View()[action.serverID].sockets, action.addrSocket, rand)
      && (c != null ==> c.queued == if c.isCloseChan then old(c.queued) else old(c.queued) + [frame])
    ensures !action.Deliver? ==> c == null && manage.View() == old(manage.View())
    ensures forall a, s :: a in old(manage.Agents()) && s in old(a.sockets) && s != c ==> s.queued == old(s.queued)
  {
    var h := DecodeHead(frame);
    c := null;
    if h.orderType == ORDER_TYPE_REQUEST {
      action := Dial(ServerPart(h.recv));
    } else if h.orderType == ORDER_TYPE_RESPONSE {
      if h.orderRequest == ORDER_MONITOR_LOAD_CONFIG {
        action := LoadList;
      } else {
        action := Deliver(h.recv, h.addrSocket);
        c := manage.Server(h.recv, frame, h.addrSocket, rand);
      }
    } else {
      action := Ignore;
    }
  }

  /** The socket is listed under the server id. */
  predicate Registered(t: Table, id: nat, c: TcpSocket) {
    id in t && c in t[id].sockets
  }

  /** The end of the way back: when the proxy handles an answer to a request that came in on socket
      `c`, the answer is queued on `c` if and only if `c` is still registered under the client's id and
      has not been told to close. */
  method AnswerArrives(manage: Manage, request: seq<Byte>, answer: seq<Byte>, proxyID: nat, clientID: nat,
      c: TcpSocket, rand: nat)
    requires manage.Valid() && |request| >= HEAD_SIZE && CheckHead(answer).Some?
    requires proxyID < Pow256(4) && 0 < c.addrSocket < Pow256(8)
    requires Answers(Patched(request, proxyID, c.addrSocket), answer, clientID)
    requires clientID in manage.View() ==> DistinctAddrs(manage.View()[clientID].sockets)
    modifies manage.manageAgent`serverIDMap, (set m | m in manage.manageAgents)`serverIDMap
    modifies (set a, s | a in manage.Agents() && s in a.sockets :: s)`queued
    ensures manage.Valid()
    ensures c.queued == old(c.queued) + [answer] <==> old(Registered(manage.View(), clientID, c)) && !c.isCloseChan
    ensures c.queued == old(c.queued) || c.queued == old(c.queued) + [answer]
  {
    PatchMeetsCodec(request, proxyID, c.addrSocket);
    ghost var t := manage.View();
    ghost var s := Known(t, clientID)[clientID].sockets;
    ChosenIsRight(s, c.addrSocket, rand);
    var action, chosen := ProxyData(manage, answer, rand);
    assert chosen == Chosen(s, c.addrSocket, rand);
  }
}
