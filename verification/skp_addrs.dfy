/**
  The address list: the monitor prints its map of server addresses, the other servers read it back
  (skpPublic/skpSocket/skpManage.go, skpTcpSocket.go, skpMonitor/server/skpTcpSocketMonitor.go).
  Texts are strings of one-byte characters.
 */
module SkpAddrs {
  import opened Bytes
  import opened Options
  import opened SkpCodec
  import opened SkpStream
  import Text

  const UINT32 := 0x1_0000_0000
  const MAX_INT := 0x7fff_ffff_ffff_ffff

  // ---------- Numbers as text ----------

  function Digit(d: nat): char
    requires d < 10
  {
    (48 + d) as char
  }

  predicate IsDigit(c: char) {
    '0' <= c <= '9'
  }

  /** `strconv.Itoa` of a number that is not negative. */
  function Itoa(n: nat): (s: string)
    ensures s != "" && forall c :: c in s ==> IsDigit(c)
  {
    if n < 10 then [Digit(n)] else Itoa(n / 10) + [Digit(n % 10)]
  }

  function Number(s: string): nat
    requires forall c :: c in s ==> IsDigit(c)
  {
    if s == "" then 0 else
    var c := s[|s| - 1];
    assert IsDigit(c);
    10 * Number(s[..|s| - 1]) + (c as int - 48)
  }

  /** `strconv.Atoi` with its error ignored: 0 for what is no number, the nearest int64 for what is
      too large. */
  function Atoi(s: string): int {
    var body := if s != "" && (s[0] == '-' || s[0] == '+') then s[1..] else s;
    if body == "" || exists c :: c in body && !IsDigit(c) then 0
    else if s[0] == '-' then (if Number(body) > MAX_INT + 1 then -MAX_INT - 1 else 0 - Number(body))
    else if Number(body) > MAX_INT then MAX_INT
    else Number(body)
  }

  lemma {:induction false} NumberItoa(n: nat)
    ensures Number(Itoa(n)) == n
  {
    if n >= 10 {
      NumberItoa(n / 10);
      assert Itoa(n)[..|Itoa(n)| - 1] == Itoa(n / 10);
    }
  }

  lemma AtoiItoa(n: nat)
    requires n <= MAX_INT
    ensures Atoi(Itoa(n)) == n
  {
    NumberItoa(n);
    assert IsDigit(Itoa(n)[0]);
  }

  /** The decimal digits, the last one standing for the ones. */
  lemma ItoaDigits(n: nat, d: nat)
    requires d < 10
    ensures |Itoa(d)| == 1 && Itoa(d)[0] == "0123456789"[d]
    ensures n > 0 ==> Itoa(10 * n + d) == Itoa(n) + Itoa(d)
  {
  }

  predicate AllDigits(s: string) {
    s != "" && forall c :: c in s ==> IsDigit(c)
  }

  /** Digits, perhaps behind one sign, are a number, cut off at the ends of int64; all else counts as 0. */
  lemma AtoiCases(s: string)
    ensures AllDigits(s) ==>
      && Atoi(s) == (if Number(s) <= 0x7fff_ffff_ffff_ffff then Number(s) else 0x7fff_ffff_ffff_ffff)
      && Atoi("+" + s) == Atoi(s)
      && Atoi("-" + s) == (if Number(s) <= 0x8000_0000_0000_0000 then 0 - Number(s) else -0x8000_0000_0000_0000)
    ensures Atoi(s) != 0 ==> AllDigits(s) || (s != "" && (s[0] == '+' || s[0] == '-') && AllDigits(s[1..]))
  {
    assert ("+" + s)[1..] == s && ("-" + s)[1..] == s;
    if AllDigits(s) {
      assert s[0] in s && IsDigit(s[0]);
    }
  }

  // ---------- Splitting ----------

  lemma {:induction false} IndexOfFirst(a: string, c: char, rest: string)
    requires c !in a
    ensures Text.IndexOf(a + [c] + rest, [c]) == |a|
  {
    var s := a + [c] + rest;
    if a == "" {
      assert s[..1] == [c];
    } else {
      assert s[..1] == [a[0]] && a[0] != c && [a[0]] != [c];
      assert s[1..] == a[1..] + [c] + rest;
      IndexOfFirst(a[1..], c, rest);
    }
  }

  lemma {:induction false} IndexOfNone(s: string, c: char)
    requires c !in s
    ensures Text.IndexOf(s, [c]) == -1
  {
    if s != "" {
      assert s[..1] == [s[0]] && [s[0]] != [c];
      IndexOfNone(s[1..], c);
    }
  }

  lemma SplitFirst(a: string, c: char, rest: string)
    requires c !in a
    ensures Text.Split(a + [c] + rest, [c]) == [a] + Text.Split(rest, [c])
  {
    IndexOfFirst(a, c, rest);
    var s := a + [c] + rest;
    assert s[..|a|] == a && s[|a| + 1..] == rest;
  }

  lemma SplitColon(v: string)
    ensures |Text.Split(v, ":")| >= 2 <==> ':' in v
  {
    var i := Text.IndexOf(v, ":");
    if ':' !in v {
      IndexOfNone(v, ':');
    } else {
      var k :| 0 <= k < |v| && v[k] == ':';
      HasColon(v, k);
    }
  }

  lemma {:induction false} HasColon(v: string, k: nat)
    requires k < |v| && v[k] == ':'
    ensures Text.IndexOf(v, ":") >= 0
  {
    if k == 0 {
      assert v[..1] == ":";
    } else {
      HasColon(v[1..], k - 1);
    }
  }

  // ---------- Printing and parsing ----------

  /** The id under which a received address is filed: the second part between colons. */
  function KeyOf(v: string): nat
    requires ':' in v
  {
    SplitColon(v);
    Atoi(Text.Split(v, ":")[1]) % UINT32
  }

  /** `SkpAddServerIPPort`. */
  function Address(ip: string, port: nat): string {
    ip + ":" + Itoa(port)
  }

  /** An address whose ip has no colon is filed under its port. */
  lemma KeyOfAddress(ip: string, port: nat)
    requires ':' !in ip && port < UINT32
    ensures ':' in Address(ip, port) && KeyOf(Address(ip, port)) == port
  {
    SplitFirst(ip, ':', Itoa(port));
    assert ':' !in Itoa(port);
    IndexOfNone(Itoa(port), ':');
    assert Address(ip, port)[|ip|] == ':';
    AtoiItoa(port);
  }

  /** In general: under the number between the first and the second colon, modulo 2^32. */
  lemma KeyOfParts(a: string, b: string, rest: string)
    requires ':' !in a && ':' !in b && (rest == "" || rest[0] == ':')
    ensures var v := a + ":" + b + rest; ':' in v && KeyOf(v) == Atoi(b) % 0x1_0000_0000
  {
    var v := a + ":" + b + rest;
    assert v == a + [':'] + (b + rest) && v[|a|] == ':';
    SplitFirst(a, ':', b + rest);
    if rest == "" {
      assert b + rest == b;
      IndexOfNone(b, ':');
    } else {
      assert b + rest == b + [':'] + rest[1..];
      SplitFirst(b, ':', rest[1..]);
    }
  }

  /** The loop of `SkpAddMonitorIPList`: up to the first empty part; a part without a colon makes it
      read past the end of a slice, which panics (`None`). */
  function Learn(t: map<nat, string>, parts: seq<string>): Option<map<nat, string>>
    decreases |parts|
  {
    if parts == [] || parts[0] == "" then Some(t)
    else if ':' !in parts[0] then None
    else Learn(t[KeyOf(parts[0]) := parts[0]], parts[1..])
  }

  /** What comes behind an empty part is not read. */
  lemma {:induction false} LearnStops(t: map<nat, string>, parts: seq<string>, rest: seq<string>)
    requires "" !in parts
    ensures Learn(t, parts + [""] + rest) == Learn(t, parts)
    decreases |parts|
  {
    hide KeyOf;
    if parts != [] {
      assert (parts + [""] + rest)[1..] == parts[1..] + [""] + rest;
      if ':' in parts[0] {
        LearnStops(t[KeyOf(parts[0]) := parts[0]], parts[1..], rest);
      }
    }
  }

  /** Before that, each further part is filed and replaces what was filed there, or panics. */
  lemma {:induction false} LearnOneMore(t: map<nat, string>, parts: seq<string>, v: string)
    requires "" !in parts && v != ""
    ensures Learn(t, parts + [v]) ==
      if Learn(t, parts).None? || ':' !in v then None else Some(Learn(t, parts).value[KeyOf(v) := v])
    decreases |parts|
  {
    hide KeyOf;
    if parts == [] {
      assert [v][1..] == [];
    } else {
      assert (parts + [v])[1..] == parts[1..] + [v];
      if ':' in parts[0] {
        LearnOneMore(t[KeyOf(parts[0]) := parts[0]], parts[1..], v);
      }
    }
  }

  /** `SkpSerializeAddr` with the map iterated in the order `keys`. */
  function Printed(m: map<nat, string>, keys: seq<nat>): string
    requires forall k :: k in keys ==> k in m
  {
    if keys == [] then "" else m[keys[0]] + "," + Printed(m, keys[1..])
  }

  /** One iteration order of the map: each key once. */
  ghost predicate IsOrder(m: map<nat, string>, keys: seq<nat>) {
    && (forall k :: k in keys <==> k in m)
    && (forall i, j :: 0 <= i < j < |keys| ==> keys[i] != keys[j])
  }

  /** The text is the map, printed in some iteration order. */
  ghost predicate IsPrinted(m: map<nat, string>, text: string) {
    exists keys :: IsOrder(m, keys) && text == Printed(m, keys)
  }

  predicate Plain(v: string) {
    v != "" && ',' !in v && ':' in v
  }

  function Filed(t: map<nat, string>, m: map<nat, string>, keys: seq<nat>): map<nat, string>
    requires forall k :: k in keys ==> k in m && Plain(m[k])
    decreases |keys|
  {
    if keys == [] then t else
    assert keys[0] in keys && Plain(m[keys[0]]);
    Filed(t[KeyOf(m[keys[0]]) := m[keys[0]]], m, keys[1..])
  }

  lemma {:induction false} LearnPrinted(t: map<nat, string>, m: map<nat, string>, keys: seq<nat>)
    requires forall k :: k in keys ==> k in m && Plain(m[k])
    ensures Learn(t, Text.Split(Printed(m, keys), ",")) == Some(Filed(t, m, keys))
    decreases |keys|
  {
    if keys == [] {
      IndexOfNone("", ',');
    } else {
      var v, rest := m[keys[0]], Printed(m, keys[1..]);
      SplitFirst(v, ',', rest);
      assert v + "," + rest == v + [','] + rest;
      LearnPrinted(t[KeyOf(v) := v], m, keys[1..]);
    }
  }

  lemma {:induction false} FiledFrom(t: map<nat, string>, m: map<nat, string>, keys: seq<nat>)
    requires forall k :: k in keys ==> k in m && Plain(m[k])
    ensures var f := Filed(t, m, keys);
      forall id :: id in f ==> (id in t && f[id] == t[id]) || (Plain(f[id]) && KeyOf(f[id]) == id)
    decreases |keys|
  {
    if keys != [] {
      FiledFrom(t[KeyOf(m[keys[0]]) := m[keys[0]]], m, keys[1..]);
    }
  }

  /** When every id is the one its address is filed under, filing adds exactly the entries. */
  lemma {:induction false} FiledAll(t: map<nat, string>, m: map<nat, string>, keys: seq<nat>)
    requires forall k :: k in keys ==> k in m && Plain(m[k]) && KeyOf(m[k]) == k
    ensures var f := Filed(t, m, keys);
      && (forall id :: id in f <==> id in t || id in keys)
      && (forall id :: id in f ==> f[id] == if id in keys then m[id] else t[id])
    decreases |keys|
  {
    if keys != [] {
      FiledAll(t[keys[0] := m[keys[0]]], m, keys[1..]);
      assert forall id :: id in keys <==> id == keys[0] || id in keys[1..];
    }
  }

  predicate WellFiled(m: map<nat, string>) {
    forall k :: k in m ==> Plain(m[k]) && KeyOf(m[k]) == k
  }

  /** Whatever the iteration order: a receiver that has the map `t` ends with `t` and the sender's
      entries, the sender's taking precedence. */
  lemma ListArrives(t: map<nat, string>, m: map<nat, string>, keys: seq<nat>)
    requires IsOrder(m, keys) && WellFiled(m)
    ensures Learn(t, Text.Split(Printed(m, keys), ",")) == Some(t + m)
  {
    hide Learn, Printed, KeyOf, Filed, Plain;
    LearnPrinted(t, m, keys);
    FiledAll(t, m, keys);
    assert Filed(t, m, keys) == t + m;
  }

  /** A receiver that knows nothing gets the sender's map exactly if every server's id is the number
      its address is filed under. */
  lemma ListArrivesIff(m: map<nat, string>, keys: seq<nat>)
    requires IsOrder(m, keys) && forall k :: k in m ==> Plain(m[k])
    ensures Learn(map[], Text.Split(Printed(m, keys), ",")) == Some(m) <==> WellFiled(m)
  {
    hide Learn, Printed, KeyOf, Filed;
    LearnPrinted(map[], m, keys);
    FiledFrom(map[], m, keys);
    if WellFiled(m) {
      ListArrives(map[], m, keys);
      assert map[] + m == m;
    }
  }

  /** An id that is not the port is not carried over. */
  lemma WrongIdIsLost(ip: string, port: nat, id: nat)
    requires ':' !in ip && ',' !in ip && port < 65536 && id != port
    ensures var v := Address(ip, port);
      Learn(map[], Text.Split(Printed(map[id := v], [id]), ",")) == Some(map[port := v])
  {
    var m := map[id := Address(ip, port)];
    KeyOfAddress(ip, port);
    assert ',' !in Itoa(port);
    LearnPrinted(map[], m, [id]);
  }

  // ---------- On the wire ----------

  predicate Narrow(s: string) {
    forall i :: 0 <= i < |s| ==> s[i] as int < 256
  }

  function ToBytes(s: string): (b: seq<Byte>)
    requires Narrow(s)
    ensures |b| == |s|
  {
    seq(|s|, i requires 0 <= i < |s| => (s[i] as int) as Byte)
  }

  function FromBytes(b: seq<Byte>): (s: string)
    ensures |s| == |b|
  {
    seq(|b|, i requires 0 <= i < |b| => b[i] as char)
  }

  /** The monitor's answer (`SkpDataMonitor`): a response header, then the list. */
  function Answer(serverID: nat, order: nat, list: string): Packet
    requires Narrow(list)
  {
    Packet(Head(HEAD_SIZE, 1, 0, |list|, serverID, serverID, 0, 0, 0, 0, 0, 0, 0, order, 0), ToBytes(list))
  }

  /** The answer is cut from the stream as one frame, and what follows its header is the list. */
  lemma AnswerCarriesList(serverID: nat, order: nat, list: string, more: seq<Byte>)
    requires Narrow(list)
    requires serverID < Pow256(4) && order < Pow256(8) && |list| < Pow256(4)
    ensures var p := Answer(serverID, order, list);
      && CheckHead(p.Bytes() + more) == Some(|p.Bytes()|)
      && DecodeHead(p.Bytes()) == p.head
      && p.head.send == p.head.recv == serverID && p.head.orderRequest == order && p.head.dataSize == |list|
      && FromBytes(p.Bytes()[p.head.headSize..]) == list
  {
    var p := Answer(serverID, order, list);
    assert Pow256(2) == 65536 && Pow256(1) == 256 && Pow256(4) <= Pow256(8);
    PacketIsFrame(p, more);
    HeadRoundTrip(p.head, p.data);
    assert p.Bytes()[HEAD_SIZE..] == p.data;
  }

  // ---------- The object ----------

  class AddrBook {
    var serverAddrMap: map<nat, string>
    var serverAddrs: string

    constructor ()
      ensures serverAddrMap == map[] && serverAddrs == ""
    {
      serverAddrMap, serverAddrs := map[], "";
    }

    method AddServerAddr(serverID: nat, addr: string)
      modifies `serverAddrMap
      ensures serverAddrMap == old(serverAddrMap)[serverID := addr]
    {
      serverAddrMap := serverAddrMap[serverID := addr];
    }

    /** `SkpSerializeAddr`: printed once; what is added later does not appear in the list. */
    method SerializeAddr()
      modifies `serverAddrs
      ensures old(serverAddrs) != "" ==> serverAddrs == old(serverAddrs)
      ensures old(serverAddrs) == "" ==> IsPrinted(serverAddrMap, serverAddrs)
    {
      if |serverAddrs| != 0 {
        return;
      }
      var left := serverAddrMap.Keys;
      ghost var keys: seq<nat> := [];
      while left != {}
        invariant left <= serverAddrMap.Keys
        invariant forall k :: k in keys <==> k in serverAddrMap && k !in left
        invariant forall i, j :: 0 <= i < j < |keys| ==> keys[i] != keys[j]
        invariant serverAddrs == Printed(serverAddrMap, keys)
      {
        var k :| k in left;
        PrintedAppend(serverAddrMap, keys, k);
        serverAddrs := serverAddrs + serverAddrMap[k];
        serverAddrs := serverAddrs + ",";
        keys := keys + [k];
        left := left - {k};
      }
      assert IsOrder(serverAddrMap, keys);
    }

    /** `SkpAddMonitorIPList` on the text behind the header. The result is false where the source
        panics. */
    method AddMonitorIPList(str: string) returns (ok: bool)
      modifies this
      ensures var learnt := Learn(old(serverAddrMap), Text.Split(str, ","));
        ok == learnt.Some? && (ok ==> serverAddrMap == learnt.value)
      ensures !ok || old(serverAddrs) != "" ==> serverAddrs == old(serverAddrs)
      ensures ok && old(serverAddrs) == "" ==> IsPrinted(serverAddrMap, serverAddrs)
    {
      var strs := Text.Split(str, ",");
      var i := 0;
      while i < |strs|
        invariant 0 <= i <= |strs| && serverAddrs == old(serverAddrs)
        invariant Learn(old(serverAddrMap), strs) == Learn(serverAddrMap, strs[i..])
      {
        var v := strs[i];
        if |v| == 0 {
          break;
        }
        SplitColon(v);
        var vs := Text.Split(v, ":");
        if |vs| < 2 {
          return false;
        }
        AddServerAddr(Atoi(vs[1]) % UINT32, v);
        i := i + 1;
      }
      SerializeAddr();
      ok := true;
    }
  }

  lemma {:induction false} PrintedAppend(m: map<nat, string>, keys: seq<nat>, k: nat)
    requires k in m && forall j :: j in keys ==> j in m
    ensures Printed(m, keys + [k]) == Printed(m, keys) + m[k] + ","
  {
    if keys != [] {
      assert (keys + [k])[1..] == keys[1..] + [k];
      PrintedAppend(m, keys[1..], k);
    }
  }
}
