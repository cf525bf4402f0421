/**
  What the registry of skpPublic/skpSocket/skpManage.go stores, seen as one table from server id to
  the sockets of that server. The objects that hold it are in skp_registry.dfy.
 */
module SkpTable {
  import opened Bytes

  /** A socket as the registry knows it: its address never changes, its close flag only rises, and
      what is written to it is queued until then. */
  class TcpSocket {
    const addrSocket: nat
    var isCloseChan: bool
    var queued: seq<seq<Byte>>

    constructor (addrSocket: nat)
      ensures this.addrSocket == addrSocket && !isCloseChan && queued == []
    {
      this.addrSocket, isCloseChan, queued := addrSocket, false, [];
    }

    method CloseChan()
      modifies `isCloseChan
      ensures isCloseChan
    {
      if isCloseChan {
        return;
      }
      isCloseChan := true;
    }

    method WriteChan(data: seq<Byte>) returns (ok: bool)
      modifies `queued
      ensures ok == !isCloseChan
      ensures queued == if ok then old(queued) + [data] else old(queued)
    {
      if isCloseChan {
        return false;
      }
      queued := queued + [data];
      ok := true;
    }
  }

  /** The sockets of one server, and whether no more are accepted. */
  datatype Entry = Entry(sockets: seq<TcpSocket>, closing: bool)

  type Table = map<nat, Entry>

  // ---------- One entry ----------

  /** The list without the first occurrence of the socket. */
  function Without(s: seq<TcpSocket>, c: TcpSocket): (r: seq<TcpSocket>)
    ensures c !in s ==> r == s
  {
    if s == [] then [] else if s[0] == c then s[1..] else [s[0]] + Without(s[1..], c)
  }

  function Times(s: seq<TcpSocket>, c: TcpSocket): (n: nat)
    ensures n > 0 <==> c in s
  {
    if s == [] then 0 else (if s[0] == c then 1 else 0) + Times(s[1..], c)
  }

  lemma {:induction false} TimesAppend(s: seq<TcpSocket>, d: TcpSocket, c: TcpSocket)
    ensures Times(s + [d], c) == Times(s, c) + (if d == c then 1 else 0)
  {
    if s != [] {
      TimesAppend(s[1..], d, c);
      assert (s + [d])[1..] == s[1..] + [d];
    }
  }

  /** Deleting takes one occurrence of that socket, if there is one, and no other socket. */
  lemma {:induction false} TimesWithout(s: seq<TcpSocket>, d: TcpSocket, c: TcpSocket)
    ensures Times(Without(s, d), c) == if c == d && c in s then Times(s, c) - 1 else Times(s, c)
  {
    if s != [] && s[0] != d {
      TimesWithout(s[1..], d, c);
      assert Without(s, d)[1..] == Without(s[1..], d);
    }
  }

  lemma {:induction false} WithoutAt(s: seq<TcpSocket>, c: TcpSocket, i: nat)
    requires i < |s| && s[i] == c && c !in s[..i]
    ensures Without(s, c) == s[..i] + s[i + 1..]
  {
    if i > 0 {
      assert s[0] in s[..i] && s[1..][..i - 1] == s[..i][1..];
      WithoutAt(s[1..], c, i - 1);
    }
  }

  /** Adding a socket and deleting it again leaves the list as it was, if it was not in it before. */
  lemma {:induction false} AddThenDelete(s: seq<TcpSocket>, c: TcpSocket)
    requires c !in s
    ensures Without(s + [c], c) == s
  {
    WithoutAt(s + [c], c, |s|);
  }

  /** The first socket with the address. */
  function FirstWith(s: seq<TcpSocket>, addr: nat): TcpSocket? {
    if s == [] then null else if s[0].addrSocket == addr then s[0] else FirstWith(s[1..], addr)
  }

  /** The lookup: nothing in an empty list, any socket for address 0, else the one with the address,
      else the oldest. */
  function Chosen(s: seq<TcpSocket>, addr: nat, rand: nat): TcpSocket? {
    if s == [] then null
    else if addr == 0 then s[rand % |s|]
    else if FirstWith(s, addr) != null then FirstWith(s, addr)
    else s[0]
  }

  predicate NoneWith(s: seq<TcpSocket>, addr: nat) {
    forall d :: d in s ==> d.addrSocket != addr
  }

  predicate DistinctAddrs(s: seq<TcpSocket>) {
    forall i, j :: 0 <= i < j < |s| ==> s[i].addrSocket != s[j].addrSocket
  }

  lemma {:induction false} FirstWithFinds(s: seq<TcpSocket>, addr: nat)
    ensures var c := FirstWith(s, addr);
      if c == null then NoneWith(s, addr) else c in s && c.addrSocket == addr
  {
    if s != [] && s[0].addrSocket != addr {
      FirstWithFinds(s[1..], addr);
    }
  }

  lemma ChosenIn(s: seq<TcpSocket>, addr: nat, rand: nat)
    ensures s != [] ==> Chosen(s, addr, rand) in s
  {
    FirstWithFinds(s, addr);
  }

  /** With an address, the lookup returns the registered socket that has it, and another socket
      exactly when none has. It returns nothing exactly when the server has no socket. */
  lemma ChosenIsRight(s: seq<TcpSocket>, addr: nat, rand: nat)
    requires DistinctAddrs(s)
    ensures Chosen(s, addr, rand) == null <==> s == []
    ensures forall c :: c in s && addr != 0 ==>
      (Chosen(s, addr, rand) == c <==> c.addrSocket == addr || (c == s[0] && NoneWith(s, addr)))
    ensures s != [] ==> Chosen(s, addr, rand) in s
    ensures rand < |s| ==> Chosen(s, 0, rand) == s[rand]
  {
    FirstWithFinds(s, addr);
  }

  // ---------- The table ----------

  /** Every operation on a server makes it known. */
  function Known(t: Table, id: nat): (r: Table)
    ensures id in r
  {
    if id in t then t else t[id := Entry([], false)]
  }

  function Added(t: Table, id: nat, c: TcpSocket): Table {
    var k := Known(t, id);
    if k[id].closing then k else k[id := k[id].(sockets := k[id].sockets + [c])]
  }

  function Deleted(t: Table, id: nat, c: TcpSocket): Table {
    var k := Known(t, id);
    k[id := k[id].(sockets := Without(k[id].sockets, c))]
  }

  function Emptied(t: Table): Table {
    map id | id in t :: t[id].(sockets := [])
  }

  function Closing(t: Table): Table {
    map id | id in t :: t[id].(closing := true)
  }

  datatype Op = Add(id: nat, c: TcpSocket) | Delete(id: nat, c: TcpSocket) | Get(id: nat) | CloseAll | ListerClose

  function Apply(t: Table, op: Op): Table {
    match op
    case Add(id, c) => Added(t, id, c)
    case Delete(id, c) => Deleted(t, id, c)
    case Get(id) => Known(t, id)
    case CloseAll => Emptied(t)
    case ListerClose => Closing(t)
  }

  function SocketsOf(t: Table, id: nat): seq<TcpSocket> {
    if id in t then t[id].sockets else []
  }

  predicate Refuses(t: Table, id: nat) {
    id in t && t[id].closing
  }

  /** What each operation does to each server: its sockets, whether it takes more, and whether it is
      known at all. */
  lemma EffectOn(t: Table, op: Op, id: nat)
    ensures SocketsOf(Apply(t, op), id) ==
      (match op
       case Add(i, c) => if i == id && !Refuses(t, id) then SocketsOf(t, id) + [c] else SocketsOf(t, id)
       case Delete(i, c) => if i == id then Without(SocketsOf(t, id), c) else SocketsOf(t, id)
       case CloseAll => []
       case _ => SocketsOf(t, id))
    ensures Refuses(Apply(t, op), id) <==> Refuses(t, id) || (op.ListerClose? && id in t)
    ensures id in Apply(t, op) <==> id in t || (!op.CloseAll? && !op.ListerClose? && op.id == id)
  {
  }

  function After(t: Table, ops: seq<Op>): Table {
    if ops == [] then t else Apply(After(t, ops[..|ops| - 1]), ops[|ops| - 1])
  }

  /** A server known when the listener closed stays without sockets for good once they are closed. */
  lemma {:induction false} ShutdownSticks(t: Table, ops: seq<Op>, id: nat)
    requires id in t && t[id].closing && t[id].sockets == []
    ensures id in After(t, ops) && After(t, ops)[id] == t[id]
  {
    if ops != [] {
      ShutdownSticks(t, ops[..|ops| - 1], id);
    }
  }

  /** The limit of that: a server first asked for after the listener closed takes sockets again. */
  lemma LateServerIsOpen(t: Table, id: nat, c: TcpSocket)
    requires id !in t
    ensures After(t, [ListerClose, CloseAll, Add(id, c)])[id] == Entry([c], false)
  {
    var a, b := [ListerClose], [ListerClose, CloseAll];
    assert [ListerClose, CloseAll, Add(id, c)][..2] == b && b[..1] == a && a[..0] == [];
    assert After(t, a) == Closing(t);
    assert After(t, b) == Emptied(Closing(t));
  }

  /** After a shutdown a server stays without sockets if and only if it was known before. */
  lemma ShutdownHoldsIff(t: Table, id: nat, c: TcpSocket)
    ensures var u := Emptied(Closing(t));
      (forall ops :: id in After(u, ops) ==> After(u, ops)[id].sockets == []) <==> id in t
  {
    var u := Emptied(Closing(t));
    if id in t {
      forall ops | id in After(u, ops)
        ensures After(u, ops)[id].sockets == []
      {
        ShutdownSticks(u, ops, id);
      }
    } else {
      var ops := [Add(id, c)];
      assert ops[..0] == [] && After(u, ops) == Added(u, id, c);
      assert After(u, ops)[id].sockets == [c] && id in After(u, ops);
      assert exists xs: seq<Op> :: id in After(u, xs) && After(u, xs)[id].sockets != [];
    }
  }

  function CountAdds(ops: seq<Op>, id: nat, c: TcpSocket): nat {
    if ops == [] then 0
    else CountAdds(ops[..|ops| - 1], id, c) + (if ops[|ops| - 1] == Add(id, c) then 1 else 0)
  }

  function Count(t: Table, id: nat, c: TcpSocket): nat {
    if id in t then Times(t[id].sockets, c) else 0
  }

  lemma CountStep(t: Table, op: Op, id: nat, c: TcpSocket)
    ensures Count(Apply(t, op), id, c) <= Count(t, id, c) + (if op == Add(id, c) then 1 else 0)
  {
    if (op.Add? || op.Delete?) && op.id == id {
      var s := Known(t, id)[id].sockets;
      TimesAppend(s, op.c, c);
      TimesWithout(s, op.c, c);
    }
  }

  /** A socket is listed under a server at most as often as it was added there. */
  lemma {:induction false} OnlyAdded(t: Table, ops: seq<Op>, id: nat, c: TcpSocket)
    ensures Count(After(t, ops), id, c) <= Count(t, id, c) + CountAdds(ops, id, c)
  {
    if ops != [] {
      OnlyAdded(t, ops[..|ops| - 1], id, c);
      CountStep(After(t, ops[..|ops| - 1]), ops[|ops| - 1], id, c);
    }
  }

  /** Operations on other servers, and lookups, do not touch a server's entry. */
  lemma {:induction false} OthersUntouched(t: Table, ops: seq<Op>, id: nat)
    requires id in t
    requires forall i :: 0 <= i < |ops| ==>
      ops[i].Get? || (ops[i].Add? && ops[i].id != id) || (ops[i].Delete? && ops[i].id != id)
    ensures id in After(t, ops) && After(t, ops)[id] == t[id]
  {
    if ops != [] {
      OthersUntouched(t, ops[..|ops| - 1], id);
    }
  }

  /** Until it is deleted or everything is closed, an added socket is found under its address. */
  lemma {:induction false} RegisteredIsFound(t: Table, ops: seq<Op>, id: nat, c: TcpSocket, rand: nat)
    requires id in t && c in t[id].sockets && c.addrSocket != 0
    requires forall i :: 0 <= i < |ops| ==> ops[i] != Delete(id, c) && ops[i] != CloseAll
    ensures id in After(t, ops)
    ensures DistinctAddrs(After(t, ops)[id].sockets) ==> Chosen(After(t, ops)[id].sockets, c.addrSocket, rand) == c
  {
    StaysListed(t, ops, id, c);
    FirstWithFinds(After(t, ops)[id].sockets, c.addrSocket);
  }

  lemma {:induction false} StaysListed(t: Table, ops: seq<Op>, id: nat, c: TcpSocket)
    requires id in t && c in t[id].sockets
    requires forall i :: 0 <= i < |ops| ==> ops[i] != Delete(id, c) && ops[i] != CloseAll
    ensures id in After(t, ops) && c in After(t, ops)[id].sockets
  {
    if ops != [] {
      var n := |ops| - 1;
      StaysListed(t, ops[..n], id, c);
      var u := After(t, ops[..n]);
      if ops[n].Delete? && ops[n].id == id {
        assert ops[n].c != c;
        TimesWithout(u[id].sockets, ops[n].c, c);
      }
    }
  }
}
