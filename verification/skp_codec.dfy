/**
  The two packet headers of skpPublic/skpProtocol/skpProtocol.go. `SkpEncode` and `SkpDecode` are
  encoding/binary in little-endian order: a header is the concatenation of its fields, each in
  as many bytes as its type has. Field values are natural numbers below the range of their type.
 */
module SkpCodec {
  import opened Bytes
  import opened Options

  // ---------- Records of unsigned fields ----------

  /** Where field `i` begins. */
  function Offset(ws: seq<nat>, i: nat): nat
    requires i <= |ws|
  {
    if i == 0 then 0 else Offset(ws, i - 1) + ws[i - 1]
  }

  lemma {:induction false} OffsetGrows(ws: seq<nat>, i: nat, j: nat)
    requires i <= j <= |ws|
    ensures Offset(ws, i) <= Offset(ws, j)
    decreases j
  {
    if i < j {
      OffsetGrows(ws, i, j - 1);
    }
  }

  predicate Fits(vs: seq<nat>, ws: seq<nat>) {
    |vs| == |ws| && forall i :: 0 <= i < |vs| ==> vs[i] < Pow256(ws[i])
  }

  /** The first `n` fields, one after the other. */
  function Pack(vs: seq<nat>, ws: seq<nat>, n: nat): (b: seq<Byte>)
    requires n <= |vs| && n <= |ws|
    ensures |b| == Offset(ws, n)
  {
    if n == 0 then [] else Pack(vs, ws, n - 1) + ToLittle(vs[n - 1], ws[n - 1])
  }

  function Unpack(b: seq<Byte>, ws: seq<nat>, n: nat): (vs: seq<nat>)
    requires n <= |ws| && Offset(ws, n) <= |b|
    ensures |vs| == n
  {
    if n == 0 then [] else Unpack(b, ws, n - 1) + [FromLittle(b[Offset(ws, n - 1)..Offset(ws, n)])]
  }

  lemma {:induction false} UnpackPack(vs: seq<nat>, ws: seq<nat>, n: nat, more: seq<Byte>)
    requires Fits(vs, ws) && n <= |vs|
    ensures Unpack(Pack(vs, ws, n) + more, ws, n) == vs[..n]
  {
    if n > 0 {
      var b := Pack(vs, ws, n) + more;
      assert b == Pack(vs, ws, n - 1) + (ToLittle(vs[n - 1], ws[n - 1]) + more);
      UnpackPack(vs, ws, n - 1, ToLittle(vs[n - 1], ws[n - 1]) + more);
      assert b[Offset(ws, n - 1)..Offset(ws, n)] == ToLittle(vs[n - 1], ws[n - 1]);
      LittleRoundTrip(vs[n - 1], ws[n - 1]);
    }
  }

  lemma {:induction false} PackSame(vs: seq<nat>, us: seq<nat>, ws: seq<nat>, n: nat)
    requires n <= |vs| && n <= |us| && n <= |ws| && forall i :: 0 <= i < n ==> vs[i] == us[i]
    ensures Pack(vs, ws, n) == Pack(us, ws, n)
  {
    if n > 0 {
      PackSame(vs, us, ws, n - 1);
    }
  }

  lemma {:induction false} PackUnpack(b: seq<Byte>, ws: seq<nat>, n: nat)
    requires n <= |ws| && Offset(ws, n) <= |b|
    ensures Fits(Unpack(b, ws, n), ws[..n])
    ensures Pack(Unpack(b, ws, n), ws, n) == b[..Offset(ws, n)]
  {
    hide ToLittle, FromLittle, Pow256;
    if n > 0 {
      PackUnpack(b, ws, n - 1);
      PackSame(Unpack(b, ws, n), Unpack(b, ws, n - 1), ws, n - 1);
      var field := b[Offset(ws, n - 1)..Offset(ws, n)];
      LittleOnto(field);
      LittleBound(field);
      assert b[..Offset(ws, n)] == b[..Offset(ws, n - 1)] + field;
    }
  }

  /** Changing one field changes exactly its bytes. */
  lemma {:induction false} PackField(vs: seq<nat>, ws: seq<nat>, n: nat, i: nat, v: nat)
    requires i < n <= |vs| && n <= |ws|
    ensures Offset(ws, i) <= Offset(ws, i + 1) <= Offset(ws, n)
    ensures var b := Pack(vs, ws, n);
      Pack(vs[i := v], ws, n) == b[..Offset(ws, i)] + ToLittle(v, ws[i]) + b[Offset(ws, i + 1)..]
  {
    OffsetGrows(ws, i, i + 1);
    OffsetGrows(ws, i + 1, n);
    var b := Pack(vs, ws, n);
    if i == n - 1 {
      PackSame(vs[i := v], vs, ws, i);
      assert b[..Offset(ws, i)] == Pack(vs, ws, i);
    } else {
      PackField(vs, ws, n - 1, i, v);
      OffsetGrows(ws, i + 1, n - 1);
      var a, last := Pack(vs, ws, n - 1), ToLittle(vs[n - 1], ws[n - 1]);
      assert b == a + last;
      assert b[..Offset(ws, i)] == a[..Offset(ws, i)];
      assert b[Offset(ws, i + 1)..] == a[Offset(ws, i + 1)..] + last;
    }
  }

  // ---------- The two headers ----------

  datatype ConnHead = ConnHead(
    headSize: nat, isKeep: nat, isConnHead: nat, dataSize: nat, fromServerID: nat, toServerID: nat,
    connType: nat, r: nat, r2: nat, r3: nat, r4: nat)
  {
    function Fields(): seq<nat> {
      [headSize, isKeep, isConnHead, dataSize, fromServerID, toServerID, connType, r, r2, r3, r4]
    }
  }

  datatype Head = Head(
    headSize: nat, orderType: nat, isConnHead: nat, dataSize: nat, send: nat, recv: nat, proxyID: nat,
    status: nat, error: nat, addrSocket: nat, clientMark: nat, param: nat, r: nat,
    orderRequest: nat, orderServer: nat)
  {
    function Fields(): seq<nat> {
      [headSize, orderType, isConnHead, dataSize, send, recv, proxyID, status, error, addrSocket,
       clientMark, param, r, orderRequest, orderServer]
    }
  }

  const CONN_WIDTHS: seq<nat> := [2, 1, 1, 4, 8, 8, 1, 1, 1, 1, 4]
  const HEAD_WIDTHS: seq<nat> := [2, 1, 1, 4, 8, 8, 4, 2, 2, 8, 8, 4, 4, 8, 8]
  const CONN_SIZE := 32
  const HEAD_SIZE := 72

  function ConnHeadOf(f: seq<nat>): ConnHead
    requires |f| == 11
  {
    ConnHead(f[0], f[1], f[2], f[3], f[4], f[5], f[6], f[7], f[8], f[9], f[10])
  }

  function HeadOf(f: seq<nat>): Head
    requires |f| == 15
  {
    Head(f[0], f[1], f[2], f[3], f[4], f[5], f[6], f[7], f[8], f[9], f[10], f[11], f[12], f[13], f[14])
  }

  lemma Offsets()
    ensures Offset(CONN_WIDTHS, 11) == CONN_SIZE && Offset(HEAD_WIDTHS, 15) == HEAD_SIZE
    ensures Offset(HEAD_WIDTHS, 6) == 24 && Offset(HEAD_WIDTHS, 7) == 28
    ensures Offset(HEAD_WIDTHS, 9) == 32 && Offset(HEAD_WIDTHS, 10) == 40
  {
    assert Offset(HEAD_WIDTHS, 3) == 4;
    assert Offset(HEAD_WIDTHS, 12) == 52;
    assert Offset(CONN_WIDTHS, 3) == 4;
    assert Offset(CONN_WIDTHS, 6) == 24;
    assert Offset(CONN_WIDTHS, 9) == 27;
  }

  function EncodeConnHead(h: ConnHead): (b: seq<Byte>)
    ensures |b| == CONN_SIZE
  {
    Offsets();
    Pack(h.Fields(), CONN_WIDTHS, 11)
  }

  /** Decoding reads the beginning of the data; what follows does not matter. */
  function DecodeConnHead(b: seq<Byte>): ConnHead
    requires |b| >= CONN_SIZE
  {
    Offsets();
    ConnHeadOf(Unpack(b, CONN_WIDTHS, 11))
  }

  function EncodeHead(h: Head): (b: seq<Byte>)
    ensures |b| == HEAD_SIZE
  {
    Offsets();
    Pack(h.Fields(), HEAD_WIDTHS, 15)
  }

  function DecodeHead(b: seq<Byte>): Head
    requires |b| >= HEAD_SIZE
  {
    Offsets();
    HeadOf(Unpack(b, HEAD_WIDTHS, 15))
  }

  /** Encoding a header and decoding it, whatever follows it, gives the header back. */
  lemma ConnHeadRoundTrip(h: ConnHead, more: seq<Byte>)
    requires Fits(h.Fields(), CONN_WIDTHS)
    ensures DecodeConnHead(EncodeConnHead(h) + more) == h
  {
    Offsets();
    hide Pack, Unpack, Offset;
    UnpackPack(h.Fields(), CONN_WIDTHS, 11, more);
    assert h.Fields()[..11] == h.Fields();
    assert ConnHeadOf(h.Fields()) == h;
  }

  lemma ConnHeadOnto(b: seq<Byte>)
    requires |b| >= CONN_SIZE
    ensures Fits(DecodeConnHead(b).Fields(), CONN_WIDTHS)
    ensures EncodeConnHead(DecodeConnHead(b)) == b[..CONN_SIZE]
  {
    Offsets();
    hide Pack, Unpack, Offset;
    PackUnpack(b, CONN_WIDTHS, 11);
    assert CONN_WIDTHS[..11] == CONN_WIDTHS;
    assert DecodeConnHead(b).Fields() == Unpack(b, CONN_WIDTHS, 11);
  }

  lemma HeadRoundTrip(h: Head, more: seq<Byte>)
    requires Fits(h.Fields(), HEAD_WIDTHS)
    ensures DecodeHead(EncodeHead(h) + more) == h
  {
    Offsets();
    hide Pack, Unpack, Offset;
    UnpackPack(h.Fields(), HEAD_WIDTHS, 15, more);
    assert h.Fields()[..15] == h.Fields();
    assert HeadOf(h.Fields()) == h;
  }

  lemma HeadOnto(b: seq<Byte>)
    requires |b| >= HEAD_SIZE
    ensures Fits(DecodeHead(b).Fields(), HEAD_WIDTHS)
    ensures EncodeHead(DecodeHead(b)) == b[..HEAD_SIZE]
  {
    Offsets();
    hide Pack, Unpack, Offset;
    PackUnpack(b, HEAD_WIDTHS, 15);
    assert HEAD_WIDTHS[..15] == HEAD_WIDTHS;
    assert DecodeHead(b).Fields() == Unpack(b, HEAD_WIDTHS, 15);
  }

  // ---------- Where each field is ----------

  lemma {:induction false} FieldAt(b: seq<Byte>, ws: seq<nat>, n: nat, i: nat)
    requires i < n <= |ws| && Offset(ws, n) <= |b|
    ensures Offset(ws, i) <= Offset(ws, i + 1) <= |b|
    ensures Unpack(b, ws, n)[i] == FromLittle(b[Offset(ws, i)..Offset(ws, i + 1)])
  {
    OffsetGrows(ws, i, i + 1);
    OffsetGrows(ws, i + 1, n);
    if i < n - 1 {
      OffsetGrows(ws, n - 1, n);
      FieldAt(b, ws, n - 1, i);
    }
  }

  /** The bytes of a connection header that hold each field, the low byte first. */
  lemma ConnHeadLayout(b: seq<Byte>)
    requires |b| >= 32
    ensures var h := DecodeConnHead(b);
      && h.headSize == U16(b, 0) && h.isKeep == b[2] && h.isConnHead == b[3]
      && h.dataSize == U32(b, 4)
      && h.fromServerID == FromLittle(b[8..16]) && h.toServerID == FromLittle(b[16..24])
      && h.connType == b[24] && h.r == b[25] && h.r2 == b[26] && h.r3 == b[27]
      && h.r4 == FromLittle(b[28..32])
  {
    ConnOffsets();
    hide Offset, Unpack, FromLittle;
    forall i: nat {:trigger Offset(CONN_WIDTHS, i)} | i < 11
      ensures Offset(CONN_WIDTHS, i) <= Offset(CONN_WIDTHS, i + 1) <= |b|
      ensures Unpack(b, CONN_WIDTHS, 11)[i] == FromLittle(b[Offset(CONN_WIDTHS, i)..Offset(CONN_WIDTHS, i + 1)])
    {
      FieldAt(b, CONN_WIDTHS, 11, i);
    }
    TwoBytes(b, 0);
    FourBytes(b, 4);
    OneByte(b, 2); OneByte(b, 3);
    OneByte(b, 24); OneByte(b, 25); OneByte(b, 26); OneByte(b, 27);
  }

  /** The bytes of a packet header that hold each field, the low byte first. */
  lemma HeadLayout(b: seq<Byte>)
    requires |b| >= 72
    ensures var h := DecodeHead(b);
      && h.headSize == U16(b, 0) && h.orderType == b[2] && h.isConnHead == b[3]
      && h.dataSize == U32(b, 4)
      && h.send == FromLittle(b[8..16]) && h.recv == FromLittle(b[16..24])
      && h.proxyID == FromLittle(b[24..28])
      && h.status == FromLittle(b[28..30]) && h.error == FromLittle(b[30..32])
      && h.addrSocket == FromLittle(b[32..40]) && h.clientMark == FromLittle(b[40..48])
      && h.param == FromLittle(b[48..52]) && h.r == FromLittle(b[52..56])
      && h.orderRequest == FromLittle(b[56..64]) && h.orderServer == FromLittle(b[64..72])
  {
    HeadOffsets();
    hide Offset, Unpack, FromLittle;
    forall i: nat {:trigger Offset(HEAD_WIDTHS, i)} | i < 15
      ensures Offset(HEAD_WIDTHS, i) <= Offset(HEAD_WIDTHS, i + 1) <= |b|
      ensures Unpack(b, HEAD_WIDTHS, 15)[i] == FromLittle(b[Offset(HEAD_WIDTHS, i)..Offset(HEAD_WIDTHS, i + 1)])
    {
      FieldAt(b, HEAD_WIDTHS, 15, i);
    }
    TwoBytes(b, 0);
    FourBytes(b, 4);
    OneByte(b, 2); OneByte(b, 3);
  }

  lemma ConnOffsets()
    ensures Offset(CONN_WIDTHS, 0) == 0 && Offset(CONN_WIDTHS, 1) == 2 && Offset(CONN_WIDTHS, 2) == 3
    ensures Offset(CONN_WIDTHS, 3) == 4 && Offset(CONN_WIDTHS, 4) == 8 && Offset(CONN_WIDTHS, 5) == 16
    ensures Offset(CONN_WIDTHS, 6) == 24 && Offset(CONN_WIDTHS, 7) == 25 && Offset(CONN_WIDTHS, 8) == 26
    ensures Offset(CONN_WIDTHS, 9) == 27 && Offset(CONN_WIDTHS, 10) == 28 && Offset(CONN_WIDTHS, 11) == 32
  {
  }

  lemma HeadOffsets()
    ensures Offset(HEAD_WIDTHS, 0) == 0 && Offset(HEAD_WIDTHS, 1) == 2 && Offset(HEAD_WIDTHS, 2) == 3
    ensures Offset(HEAD_WIDTHS, 3) == 4 && Offset(HEAD_WIDTHS, 4) == 8 && Offset(HEAD_WIDTHS, 5) == 16
    ensures Offset(HEAD_WIDTHS, 6) == 24 && Offset(HEAD_WIDTHS, 7) == 28 && Offset(HEAD_WIDTHS, 8) == 30
    ensures Offset(HEAD_WIDTHS, 9) == 32 && Offset(HEAD_WIDTHS, 10) == 40 && Offset(HEAD_WIDTHS, 11) == 48
    ensures Offset(HEAD_WIDTHS, 12) == 52 && Offset(HEAD_WIDTHS, 13) == 56 && Offset(HEAD_WIDTHS, 14) == 64
    ensures Offset(HEAD_WIDTHS, 15) == 72
  {
  }

  // ---------- Frames ----------

  /** `SkpCheckConnHead`: the size of a complete frame at the beginning of the data. */
  function CheckConnHead(b: seq<Byte>): (size: Option<nat>)
    ensures size.Some? ==> CONN_SIZE <= |b| && size.value <= |b|
  {
    if |b| < CONN_SIZE then None else
    var h := DecodeConnHead(b);
    if |b| < h.headSize || |b| < h.headSize + h.dataSize then None else Some(h.headSize + h.dataSize)
  }

  /** `SkpCheckHead`. */
  function CheckHead(b: seq<Byte>): (size: Option<nat>)
    ensures size.Some? ==> HEAD_SIZE <= |b| && size.value <= |b|
  {
    if |b| < HEAD_SIZE then None else
    var h := DecodeHead(b);
    if |b| < h.headSize || |b| < h.headSize + h.dataSize then None else Some(h.headSize + h.dataSize)
  }

  lemma {:induction false} UnpackPrefix(b: seq<Byte>, more: seq<Byte>, ws: seq<nat>, n: nat)
    requires n <= |ws| && Offset(ws, n) <= |b|
    ensures Unpack(b + more, ws, n) == Unpack(b, ws, n)
  {
    if n > 0 {
      UnpackPrefix(b, more, ws, n - 1);
      assert (b + more)[Offset(ws, n - 1)..Offset(ws, n)] == b[Offset(ws, n - 1)..Offset(ws, n)];
    }
  }

  /** A complete frame stays the same frame when more data arrives. */
  lemma CheckStays(b: seq<Byte>, more: seq<Byte>)
    ensures CheckConnHead(b).Some? ==> CheckConnHead(b + more) == CheckConnHead(b)
    ensures CheckHead(b).Some? ==> CheckHead(b + more) == CheckHead(b)
  {
    Offsets();
    if |b| >= CONN_SIZE {
      UnpackPrefix(b, more, CONN_WIDTHS, 11);
    }
    if |b| >= HEAD_SIZE {
      UnpackPrefix(b, more, HEAD_WIDTHS, 15);
    }
  }

  /** What the checks read off the bytes: a frame is complete when its header is there and as many
      bytes as the header's size (bytes 0 and 1) and the data's size (bytes 4 to 7) add up to. */
  lemma ChecksReadTheSizes(b: seq<Byte>)
    ensures CheckHead(b) == if SizesFit(b, 72) then Some(AnnouncedSize(b)) else None
    ensures CheckConnHead(b) == if SizesFit(b, 32) then Some(AnnouncedSize(b)) else None
  {
    hide Pow256, FromLittle, Offset, Unpack, U16, U32, DecodeHead, DecodeConnHead;
    if |b| >= 72 {
      HeadLayout(b);
    }
    if |b| >= 32 {
      ConnHeadLayout(b);
    }
  }

  function AnnouncedSize(b: seq<Byte>): nat
    requires |b| >= 8
  {
    U16(b, 0) + U32(b, 4)
  }

  predicate SizesFit(b: seq<Byte>, headerSize: nat)
    requires headerSize >= 8
  {
    |b| >= headerSize && |b| >= AnnouncedSize(b)
  }

  // ---------- The in-place patch ----------

  /** The frame with the proxy's id in bytes 24 to 27 and the socket's address in bytes 32 to 39. */
  function Patched(frame: seq<Byte>, serverID: nat, addrSocket: nat): (b: seq<Byte>)
    requires |frame| >= 40
    ensures |b| == |frame|
  {
    frame[..24] + ToLittle(serverID, 4) + frame[28..32] + ToLittle(addrSocket, 8) + frame[40..]
  }

  /** Patching the bytes is decoding the header, setting two fields and encoding it again; all
      other fields and the payload stay. */
  lemma PatchMeetsCodec(frame: seq<Byte>, serverID: nat, addrSocket: nat)
    requires |frame| >= HEAD_SIZE && serverID < Pow256(4) && addrSocket < Pow256(8)
    ensures var b := Patched(frame, serverID, addrSocket);
      && b == EncodeHead(DecodeHead(frame).(proxyID := serverID, addrSocket := addrSocket)) + frame[HEAD_SIZE..]
      && DecodeHead(b) == DecodeHead(frame).(proxyID := serverID, addrSocket := addrSocket)
      && b[HEAD_SIZE..] == frame[HEAD_SIZE..]
  {
    Offsets();
    hide Pack, Unpack, Offset, ToLittle, Patched;
    var h := DecodeHead(frame);
    var vs := h.Fields();
    var k := h.(proxyID := serverID, addrSocket := addrSocket);
    HeadOnto(frame);
    var a := EncodeHead(h);
    PackField(vs, HEAD_WIDTHS, 15, 6, serverID);
    var us: seq<nat> := vs[6 := serverID];
    var c := Pack(us, HEAD_WIDTHS, 15);
    assert c == a[..24] + ToLittle(serverID, 4) + a[28..];
    PackField(us, HEAD_WIDTHS, 15, 9, addrSocket);
    assert us[9 := addrSocket] == k.Fields();
    assert EncodeHead(k) == c[..32] + ToLittle(addrSocket, 8) + c[40..];
    assert c[..32] == a[..24] + ToLittle(serverID, 4) + a[28..32] && c[40..] == a[40..];
    PatchPieces(frame, a, EncodeHead(k), serverID, addrSocket);
    assert Fits(k.Fields(), HEAD_WIDTHS);
    HeadRoundTrip(k, frame[HEAD_SIZE..]);
  }

  lemma PatchPieces(frame: seq<Byte>, a: seq<Byte>, e: seq<Byte>, serverID: nat, addrSocket: nat)
    requires |frame| >= HEAD_SIZE && a == frame[..HEAD_SIZE]
    requires e == a[..24] + ToLittle(serverID, 4) + a[28..32] + ToLittle(addrSocket, 8) + a[40..]
    ensures Patched(frame, serverID, addrSocket) == e + frame[HEAD_SIZE..]
  {
    hide ToLittle;
    var front := a[..24] + ToLittle(serverID, 4) + a[28..32] + ToLittle(addrSocket, 8);
    assert e + frame[HEAD_SIZE..] == front + (a[40..] + frame[HEAD_SIZE..]);
    assert a[40..] + frame[HEAD_SIZE..] == frame[40..];
    assert a[..24] == frame[..24] && a[28..32] == frame[28..32];
  }
}
