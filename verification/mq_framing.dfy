/**
  Messages on a byte stream (skynet_go/mq/mqConn.go, vector.go and utility/utility.go): each
  message is written as a 4-byte big-endian length and its bytes, perhaps in several short
  writes; the reader collects whatever chunks arrive in a buffer and cuts the messages out.

  A message is its marshalled bytes. `decode` works on everything read from one connection; the
  classes work one read or write at a time.
 */
module MqFraming {

  import opened Bytes

  const RANGE_32 := 0x1_0000_0000
  const HALF_32 := 0x8000_0000
  const READ_MAX := 4096

  // ---------- Lengths ----------

  /** The conversion of an int to int32. */
  function ToInt32(n: int): (r: int)
    ensures -HALF_32 <= r < HALF_32
    ensures r == n <==> -HALF_32 <= n < HALF_32
  {
    var u := n % RANGE_32;
    if u < HALF_32 then u else u - RANGE_32
  }

  /** `IntToBytes`: the int32 conversion drops the upper bits. */
  function IntToBytes(n: int): (b: seq<Byte>)
    ensures |b| == 4
  {
    ToBig(n % RANGE_32, 4)
  }

  function BytesToInt(b: seq<Byte>): (n: int)
    requires |b| == 4
    ensures -HALF_32 <= n < HALF_32
  {
    BigBound(b);
    assert Pow256(4) == RANGE_32 by { Pow4(); }
    ToInt32(FromBig(b))
  }

  lemma Pow4()
    ensures Pow256(4) == RANGE_32
  {
    assert Pow256(2) == 0x1_0000;
    assert Pow256(3) == 0x100_0000;
  }

  /** A length survives exactly when it fits a signed 32-bit integer. */
  lemma IntRoundTrip(n: int)
    ensures BytesToInt(IntToBytes(n)) == ToInt32(n)
    ensures BytesToInt(IntToBytes(n)) == n <==> -HALF_32 <= n < HALF_32
  {
    Pow4();
    BigRoundTrip(n % RANGE_32, 4);
  }

  lemma BytesRoundTrip(b: seq<Byte>)
    requires |b| == 4
    ensures IntToBytes(BytesToInt(b)) == b
  {
    Pow4();
    BigBound(b);
    BigOnto(b);
    assert BytesToInt(b) % RANGE_32 == FromBig(b);
  }

  // ---------- Frames ----------

  type Message = seq<Byte>

  function Frame(m: Message): seq<Byte> {
    IntToBytes(|m|) + m
  }

  /** What a single writer sends for a list of messages. */
  function Encode(ms: seq<Message>): seq<Byte> {
    if ms == [] then [] else Frame(ms[0]) + Encode(ms[1..])
  }

  /** One look at a buffer: too short, an empty frame, a negative length (on which the source
      panics), or a message. */
  datatype Look = Short | Empty | Negative | Got(m: Message)

  function LookAt(buffer: seq<Byte>): Look {
    if |buffer| < 4 then Short else
    var size := BytesToInt(buffer[..4]);
    if 4 + size > |buffer| then Short
    else if size == 0 then Empty
    else if size < 0 then Negative
    else Got(buffer[4..4 + size])
  }

  /** All messages that are complete in a stream, and the bytes after them; empty frames are skipped. */
  function Decode(s: seq<Byte>): (r: (seq<Message>, seq<Byte>))
    decreases |s|
  {
    match LookAt(s)
    case Short => ([], s)
    case Negative => ([], s)
    case Empty => Decode(s[4..])
    case Got(m) => var (ms, rest) := Decode(s[4 + |m|..]); ([m] + ms, rest)
  }

  /** A look at a frame, by what is left of the length in a signed 32-bit integer: nothing, a panic, or
      that many bytes. It sees the message if and only if that is not empty and shorter than 2^31. */
  lemma LookSeesFrame(m: Message, rest: seq<Byte>)
    ensures var n := ToInt32(|m|);
      LookAt(Frame(m) + rest) == if n == 0 then Empty else if n < 0 then Negative else Got(m[..n])
    ensures LookAt(Frame(m) + rest) == Got(m) <==> 0 < |m| < HALF_32
  {
    var s := Frame(m) + rest;
    var n := ToInt32(|m|);
    assert s[..4] == IntToBytes(|m|);
    IntRoundTrip(|m|);
    if n > 0 {
      assert n <= |m| && s[4..4 + n] == m[..n];
      assert m[..n] == m <==> n == |m|;
    }
  }

  /** A length is read off four bytes, the high one first and with its top bit for the sign. */
  lemma LengthBytes(b: seq<Byte>)
    requires |b| == 4
    ensures var u := 0x100_0000 * b[0] as int + 0x1_0000 * b[1] as int + 0x100 * b[2] as int + b[3] as int;
      BytesToInt(b) == if b[0] < 128 then u else u - 0x1_0000_0000
  {
    FourBigBytes(b);
  }

  /** On the wire a message follows its length in four bytes, the high one first. */
  lemma FrameBytes(m: Message)
    requires |m| < 0x8000_0000
    ensures var f := Frame(m);
      && |f| == 4 + |m| && f[4..] == m
      && |m| == 0x100_0000 * f[0] as int + 0x1_0000 * f[1] as int + 0x100 * f[2] as int + f[3] as int
  {
    IntRoundTrip(|m|);
    var b := Frame(m)[..4];
    assert b == IntToBytes(|m|);
    LengthBytes(b);
  }

  /** More bytes do not change a look that was not too short. */
  lemma LookStays(s: seq<Byte>, more: seq<Byte>)
    requires LookAt(s) != Short
    ensures LookAt(s + more) == LookAt(s)
  {
    assert (s + more)[..4] == s[..4];
    var size := BytesToInt(s[..4]);
    if size > 0 {
      assert (s + more)[4..4 + size] == s[4..4 + size];
    }
  }

  predicate Clean(s: seq<Byte>) { Decode(s).1 == [] }

  /** Decoding can stop after complete frames and go on later. */
  lemma {:induction false} DecodeAppend(s: seq<Byte>, more: seq<Byte>)
    ensures var (ms, rest) := Decode(s);
      LookAt(rest) != Negative ==> Decode(s + more) == (ms + Decode(rest + more).0, Decode(rest + more).1)
    decreases |s|
  {
    match LookAt(s)
    case Short => assert [] + Decode(s + more).0 == Decode(s + more).0;
    case Negative =>
    case Empty =>
      LookStays(s, more);
      assert (s + more)[4..] == s[4..] + more;
      DecodeAppend(s[4..], more);
    case Got(m) =>
      LookStays(s, more);
      var n := 4 + |m|;
      assert (s + more)[n..] == s[n..] + more;
      DecodeAppend(s[n..], more);
      var (ms, rest) := Decode(s[n..]);
      assert [m] + ms + Decode(rest + more).0 == [m] + (ms + Decode(rest + more).0);
  }

  function NonEmpty(ms: seq<Message>): seq<Message> {
    if ms == [] then [] else (if ms[0] == [] then [] else [ms[0]]) + NonEmpty(ms[1..])
  }

  /** Round trip: a reader that has everything gets exactly the non-empty messages, in order. */
  lemma {:induction false} DecodeEncode(ms: seq<Message>)
    requires forall m :: m in ms ==> |m| < HALF_32
    ensures Decode(Encode(ms)) == (NonEmpty(ms), [])
  {
    if ms != [] {
      DecodeEncode(ms[1..]);
      var rest := Encode(ms[1..]);
      LookSeesFrame(ms[0], rest);
      assert (Frame(ms[0]) + rest)[4 + |ms[0]|..] == rest;
      if ms[0] == [] {
        assert NonEmpty(ms) == NonEmpty(ms[1..]);
      } else {
        assert LookAt(Encode(ms)) == Got(ms[0]);
      }
    }
  }

  /** After `part`, the first `k` messages have been read, and what is kept is too short. */
  predicate HasRead(ms: seq<Message>, part: seq<Byte>, k: nat) {
    k <= |ms| && Decode(part).0 == NonEmpty(ms[..k]) && Decode(part).1 <= Encode(ms[k..])
    && LookAt(Decode(part).1) == Short
  }

  /** A reader that has only a part of the stream has a prefix of the messages, and the bytes it
      keeps are the beginning of what is still encoded. */
  lemma {:induction false} DecodePrefix(ms: seq<Message>, part: seq<Byte>)
    requires forall m :: m in ms ==> |m| < HALF_32
    requires part <= Encode(ms)
    ensures exists k: nat :: HasRead(ms, part, k)
    decreases |ms|
  {
    if LookAt(part) == Short {
      assert ms[..0] == [] && ms[0..] == ms;
      assert HasRead(ms, part, 0);
    } else {
      assert ms != [];
      FirstFrame(ms, part);
      var n := 4 + |ms[0]|;
      DecodePrefix(ms[1..], part[n..]);
      var k: nat :| HasRead(ms[1..], part[n..], k);
      assert ms[..k + 1][1..] == ms[1..][..k] && ms[k + 1..] == ms[1..][k..];
      assert HasRead(ms, part, k + 1);
    }
  }

  lemma FirstFrame(ms: seq<Message>, part: seq<Byte>)
    requires ms != [] && |ms[0]| < HALF_32 && part <= Encode(ms) && LookAt(part) != Short
    ensures var n := 4 + |ms[0]|;
      && LookAt(part) == (if ms[0] == [] then Empty else Got(ms[0]))
      && n <= |part| && part[n..] <= Encode(ms[1..])
  {
    var all := Encode(ms);
    assert all == part + all[|part|..];
    LookStays(part, all[|part|..]);
    LookSeesFrame(ms[0], Encode(ms[1..]));
    assert all[4 + |ms[0]|..] == Encode(ms[1..]);
  }

  // ---------- Streams without empty frames ----------

  /** Decoding meets no empty frame. */
  predicate Plain(s: seq<Byte>)
    decreases |s|
  {
    match LookAt(s)
    case Short | Negative => true
    case Empty => false
    case Got(m) => Plain(s[4 + |m|..])
  }

  lemma {:induction false} PlainAfter(s: seq<Byte>, more: seq<Byte>)
    requires Clean(s) && Plain(s + more)
    ensures Plain(more)
    decreases |s|
  {
    if s == [] {
      assert s + more == more;
    } else {
      LookStays(s, more);
      var n := 4 + |LookAt(s).m|;
      assert (s + more)[n..] == s[n..] + more;
      PlainAfter(s[n..], more);
    }
  }

  lemma {:induction false} PlainEncode(ms: seq<Message>)
    requires forall m :: m in ms ==> 0 < |m| < HALF_32
    ensures Plain(Encode(ms)) && NonEmpty(ms) == ms
  {
    if ms != [] {
      LookSeesFrame(ms[0], Encode(ms[1..]));
      assert Encode(ms)[4 + |ms[0]|..] == Encode(ms[1..]);
      PlainEncode(ms[1..]);
    }
  }

  // ---------- A connection ----------

  datatype ReadResult = Data(chunk: seq<Byte>) | TimedOut | Broken

  /** `wire` is everything the peer writes on the connection, `pos` what has been read of it, and
      `sent` what has been written to the peer. Chunk sizes, timeouts and failures are arbitrary. */
  class Conn {
    const wire: seq<Byte>
    var pos: nat
    var sent: seq<Byte>

    constructor (wire: seq<Byte>)
      ensures this.wire == wire && pos == 0 && sent == []
    {
      this.wire, pos, sent := wire, 0, [];
    }

    method Read(max: nat) returns (r: ReadResult)
      requires pos <= |wire|
      modifies `pos
      ensures old(pos) <= pos <= |wire|
      ensures r.Data? ==> 0 < |r.chunk| <= max && r.chunk == wire[old(pos)..pos]
      ensures !r.Data? ==> pos == old(pos)
    {
      var k: int := *;
      if 0 < k <= max && pos + k <= |wire| {
        r := Data(wire[pos..pos + k]);
        pos := pos + k;
      } else {
        var timeout := *;
        r := if timeout then TimedOut else Broken;
      }
    }

    /** A write may be short, also when it fails. */
    method Write(bytes: seq<Byte>) returns (n: nat, ok: bool)
      modifies `sent
      ensures n <= |bytes| && sent == old(sent) + bytes[..n]
      ensures ok && bytes != [] ==> n > 0
    {
      var k: int := *;
      ok := *;
      n := if 0 <= k <= |bytes| then k else |bytes|;
      if n == 0 && bytes != [] {
        ok := false;
      }
      sent := sent + bytes[..n];
    }
  }

  // ---------- The reassembly buffer ----------

  lemma OnePrefix(buffer: seq<Byte>, size: int)
    ensures forall b :: b <= buffer && |b| == size ==> b == buffer[..size]
  {
  }

  datatype GetResult = Missing | Bytes(bytes: seq<Byte>) | OutOfRange

  class Vector {
    var buffer: seq<Byte>
    var conn: Conn

    constructor (conn: Conn)
      ensures buffer == [] && this.conn == conn
    {
      buffer, this.conn := [], conn;
    }

    method Read() returns (r: ReadResult)
      requires conn.pos <= |conn.wire|
      modifies `buffer, conn`pos
      ensures old(conn.pos) <= conn.pos <= |conn.wire|
      ensures buffer == old(buffer) + conn.wire[old(conn.pos)..conn.pos]
      ensures r.Data? <==> old(conn.pos) < conn.pos
      ensures conn.pos <= old(conn.pos) + 4096
    {
      r := conn.Read(READ_MAX);
      if r.Data? {
        Put(r.chunk);
      }
    }

    method Put(bytes: seq<Byte>)
      modifies `buffer
      ensures buffer == old(buffer) + bytes
    {
      buffer := buffer + bytes;
    }

    predicate CheckSize(size: int)
      reads this
    {
      size <= |buffer|
    }

    /** What it hands out is the beginning of the buffer of that size; it hands out nothing exactly
        when `CheckSize` refuses, and the slice expression of the source panics exactly for a
        negative size. */
    function Get(size: int): (r: GetResult)
      reads this
      ensures forall b :: r == Bytes(b) <==> b <= buffer && |b| == size
      ensures r == Missing <==> !CheckSize(size)
      ensures r == OutOfRange <==> size < 0
    {
      OnePrefix(buffer, size);
      if size > |buffer| then Missing
      else if size < 0 then OutOfRange
      else Bytes(buffer[..size])
    }

    method Skip(size: nat)
      requires size <= |buffer|
      modifies `buffer
      ensures buffer == old(buffer)[size..]
    {
      buffer := buffer[size..];
    }
  }

  // ---------- Messages on a connection ----------

  datatype ReadOutcome = Msg(m: Message) | Failed(timeout: bool) | Panicked

  class MqConn {
    var vector: Vector?
    var conn: Conn?
    var isOk: bool
    ghost var start: nat                    // the position of conn when it was set
    ghost var consumed: seq<Byte>           // what has been cut from the buffer since then
    ghost var out: seq<Message>             // the messages returned since then

    /** The bytes read since the connection was set are the consumed ones and the buffered ones,
        and the consumed ones are exactly the frames of the returned messages. */
    ghost predicate Valid()
      reads this, vector, conn
    {
      && (conn == null <==> vector == null)
      && (conn != null ==>
            && vector.conn == conn && start <= conn.pos <= |conn.wire|
            && consumed + vector.buffer == conn.wire[start..conn.pos]
            && Decode(consumed) == (out, []))
    }

    constructor ()
      ensures Valid() && conn == null && !isOk
    {
      vector, conn, isOk, start, consumed, out := null, null, false, 0, [], [];
    }

    /** A different connection starts with an empty buffer; the same one keeps everything. */
    method SetConn(c: Conn?) returns (changed: bool)
      requires Valid() && (c != null ==> c.pos <= |c.wire|)
      modifies this
      ensures Valid()
      ensures changed <==> c != null && c != old(conn)
      ensures changed ==> conn == c && isOk && start == c.pos && consumed == [] && out == []
      ensures changed ==> fresh(vector) && vector.buffer == []
      ensures !changed ==> conn == old(conn) && vector == old(vector) && isOk == (old(isOk) || c != null)
      ensures !changed ==> start == old(start) && consumed == old(consumed) && out == old(out)
    {
      if c == null {
        return false;
      }
      isOk := true;
      if conn != c {
        conn := c;
        vector := new Vector(c);
        start, consumed, out := c.pos, [], [];
        return true;
      }
      return false;
    }

    method Write(bytes: Message) returns (ok: bool)
      requires conn != null
      modifies `isOk, conn`sent
      ensures ok ==> conn.sent == old(conn.sent) + Frame(bytes) && isOk == old(isOk)
      ensures !ok ==> !isOk && exists k: nat :: k <= |Frame(bytes)| && conn.sent == old(conn.sent) + Frame(bytes)[..k]
    {
      ghost var n: nat;
      ghost var m: nat;
      ok, n := WriteBytes(IntToBytes(|bytes|));
      assert IntToBytes(|bytes|)[..n] == Frame(bytes)[..n];
      if ok {
        ok, m := WriteBytes(bytes);
        assert Frame(bytes)[..4 + m] == IntToBytes(|bytes|) + bytes[..m];
        n := 4 + m;
      }
      if !ok {
        isOk := false;
        assert conn.sent == old(conn.sent) + Frame(bytes)[..n];
      }
    }

    /** `n` is how much has been written; the loop goes on after a short write. */
    method WriteBytes(bytes: seq<Byte>) returns (ok: bool, ghost n: nat)
      requires conn != null
      modifies conn`sent
      ensures n <= |bytes| && conn.sent == old(conn.sent) + bytes[..n]
      ensures ok ==> n == |bytes|
    {
      var rest := bytes;
      var size := |bytes|;
      n := 0;
      while size > 0
        invariant size == |rest| && n == |bytes| - size && rest == bytes[n..]
        invariant conn.sent == old(conn.sent) + bytes[..n]
      {
        var wSize, wOk := conn.Write(rest);
        n := n + wSize;
        assert bytes[..n] == bytes[..n - wSize] + rest[..wSize];
        if !wOk {
          return false, n;
        }
        if wSize == size {
          break;
        }
        rest := rest[wSize..];
        size := size - wSize;
      }
      return true, |bytes|;
    }

    /** The next message of the buffer, if it is complete; an empty frame is only removed. */
    method GetMqMsg() returns (look: Look)
      requires Valid() && conn != null
      modifies vector`buffer, `consumed, `out
      ensures look == LookAt(old(vector.buffer))
      ensures look == Short ==> vector.buffer == old(vector.buffer)
      ensures look != Negative ==> Valid()
      ensures out == old(out) + if look.Got? then [look.m] else []
      ensures look == Short || look == Negative ==> consumed == old(consumed)
    {
      hide Decode;
      ghost var before := vector.buffer;
      var sizeBytes := vector.Get(4);
      if sizeBytes.Missing? {
        return Short;
      }
      assert sizeBytes.bytes == before[..4];
      var size := BytesToInt(sizeBytes.bytes);
      if !vector.CheckSize(4 + size) {
        return Short;
      }
      OneFrame(before);
      hide Vector.Get;
      vector.Skip(4);
      if size == 0 {
        Consume(before, before[..4], []);
        return Empty;
      }
      var msg := vector.Get(size);
      if msg.OutOfRange? {
        return Negative;
      }
      vector.Skip(size);
      assert before[4..][..size] == before[4..4 + size] && before[4..][size..] == before[4 + size..];
      Consume(before, before[..4 + size], [msg.bytes]);
      return Got(msg.bytes);
    }

    ghost method Consume(before: seq<Byte>, frame: seq<Byte>, ms: seq<Message>)
      requires conn != null && vector != null && vector.conn == conn && start <= conn.pos <= |conn.wire|
      requires consumed + before == conn.wire[start..conn.pos] && before == frame + vector.buffer
      requires Decode(consumed) == (out, []) && Decode(frame) == (ms, [])
      modifies `consumed, `out
      ensures Valid() && out == old(out) + ms
    {
      hide Decode;
      FrameDecodes(consumed, out, frame, ms);
      assert consumed + before == (consumed + frame) + vector.buffer;
      consumed := consumed + frame;
      out := out + ms;
    }

    method Fill() returns (r: ReadResult)
      requires Valid() && conn != null
      modifies vector`buffer, conn`pos
      ensures Valid()
      ensures old(conn.pos) <= conn.pos && (r.Data? <==> old(conn.pos) < conn.pos)
      ensures !r.Data? ==> vector.buffer == old(vector.buffer)
    {
      r := vector.Read();
      assert conn.wire[start..conn.pos] == conn.wire[start..old(conn.pos)] + conn.wire[old(conn.pos)..conn.pos];
    }

    /** Reads until a message is complete. After a failure, which may be a timeout at any byte, the
        messages returned so far and the buffer are exactly what the bytes read so far decode to,
        provided the peer writes no empty frames. */
    method ReadMqMsg() returns (r: ReadOutcome)
      requires Valid() && conn != null
      modifies `isOk, `consumed, `out, vector`buffer, conn`pos
      ensures out == old(out) + if r.Msg? then [r.m] else []
      ensures start <= conn.pos <= |conn.wire| && (!r.Panicked? ==> Valid())
      ensures isOk == (old(isOk) && !r.Failed?)
      ensures r.Failed? && Plain(conn.wire[start..]) ==>
        Decode(conn.wire[start..conn.pos]) == (out, vector.buffer)
      ensures r.Panicked? ==>
        Decode(conn.wire[start..conn.pos]).0 == out && LookAt(Decode(conn.wire[start..conn.pos]).1) == Negative
    {
      while true
        invariant Valid() && out == old(out) && isOk == old(isOk)
        decreases |conn.wire| - conn.pos
      {
        ghost var before, seen := vector.buffer, consumed;
        DecodeAppend(seen, before);
        FailsDrained(seen, before, conn.wire[conn.pos..]);
        assert conn.wire[start..] == conn.wire[start..conn.pos] + conn.wire[conn.pos..];
        hide Decode, Plain, LookAt;
        var look := GetMqMsg();
        if look.Got? {
          return Msg(look.m);
        } else if look.Negative? {
          return Panicked;
        }
        var rr := Fill();
        if !rr.Data? {
          isOk := false;
          return Failed(rr.TimedOut?);
        }
      }
    }
  }

  lemma FrameDecodes(consumed: seq<Byte>, out: seq<Message>, frame: seq<Byte>, ms: seq<Message>)
    requires Decode(consumed) == (out, []) && Decode(frame) == (ms, [])
    ensures Decode(consumed + frame) == (out + ms, [])
  {
    DecodeAppend(consumed, frame);
    assert [] + frame == frame;
  }

  lemma OneFrame(s: seq<Byte>)
    ensures LookAt(s) == Empty ==> Decode(s[..4]) == ([], [])
    ensures LookAt(s).Got? ==> Decode(s[..4 + |LookAt(s).m|]) == ([LookAt(s).m], [])
  {
    if LookAt(s) == Empty || LookAt(s).Got? {
      var n := 4 + BytesToInt(s[..4]);
      var frame := s[..n];
      assert frame[..4] == s[..4] && frame[4..n] == s[4..n];
      assert frame[n..] == [] && LookAt(frame) == LookAt(s) && Decode([]) == ([], []);
      if LookAt(s).Got? {
        var m := LookAt(frame).m;
        assert frame[4 + |m|..] == [] && [m] + [] == [m];
        assert Decode(frame) == ([m] + Decode([]).0, Decode([]).1);
      }
    }
  }

  /** In a stream without empty frames, a look between frames that finds no message means that
      nothing is left to return; a look that finds a negative length is where decoding stops. */
  lemma FailsDrained(seen: seq<Byte>, buffer: seq<Byte>, coming: seq<Byte>)
    requires Clean(seen)
    ensures Plain(seen + buffer + coming) ==> LookAt(buffer) != Empty
    ensures LookAt(buffer) == Short || LookAt(buffer) == Negative ==>
      Decode(seen + buffer) == (Decode(seen).0, buffer)
  {
    DecodeAppend(seen, buffer);
    assert [] + buffer == buffer && Decode(seen).0 + [] == Decode(seen).0;
    if Plain(seen + buffer + coming) && LookAt(buffer) == Empty {
      assert seen + buffer + coming == seen + (buffer + coming);
      PlainAfter(seen, buffer + coming);
      LookStays(buffer, coming);
    }
  }

  // ---------- A whole session ----------

  predicate Sendable(ms: seq<Message>) {
    forall m :: m in ms ==> 0 < |m| < HALF_32
  }

  lemma {:induction false} SendableIsNonEmpty(ms: seq<Message>)
    requires Sendable(ms)
    ensures NonEmpty(ms) == ms
  {
    if ms != [] {
      SendableIsNonEmpty(ms[1..]);
    }
  }

  /** Frames are uniquely decodable: whatever part of the peer's stream has been cut into
      messages, these are the first messages that the peer sent, and all of them at the end. */
  lemma CutMessagesWereSent(ms: seq<Message>, cut: seq<Byte>, out: seq<Message>)
    requires Sendable(ms) && cut <= Encode(ms) && Decode(cut) == (out, [])
    ensures out <= ms
    ensures cut == Encode(ms) ==> out == ms
  {
    DecodePrefix(ms, cut);
    var k: nat :| HasRead(ms, cut, k);
    SendableIsNonEmpty(ms[..k]);
    DecodeEncode(ms);
    SendableIsNonEmpty(ms);
  }

  /** Whatever the peer sent on this stream, `got` are the first messages of it. */
  ghost predicate FirstSent(stream: seq<Byte>, got: seq<Message>) {
    forall ms :: Sendable(ms) && stream <= Encode(ms) ==> got <= ms
  }

  lemma DecodedWasSent(stream: seq<Byte>, part: seq<Byte>)
    requires part <= stream
    ensures FirstSent(stream, Decode(part).0)
  {
    forall ms | Sendable(ms) && stream <= Encode(ms)
      ensures Decode(part).0 <= ms
    {
      DecodePrefix(ms, part);
      var k: nat :| HasRead(ms, part, k);
      SendableIsNonEmpty(ms[..k]);
    }
  }

  /** What a reader that has handed on `got` still has in its buffer completes the decoding of what
      it has read: no complete message is lost, and none is handed on twice. */
  ghost predicate AllKept(read: seq<Byte>, got: seq<Message>, buffer: seq<Byte>) {
    Decode(read) == (got + Decode(buffer).0, Decode(buffer).1)
  }

  lemma KeptByReader(consumed: seq<Byte>, buffer: seq<Byte>, got: seq<Message>)
    requires Decode(consumed) == (got, [])
    ensures AllKept(consumed + buffer, got, buffer)
  {
    DecodeAppend(consumed, buffer);
    assert [] + buffer == buffer;
  }

  /** The loop of `Consumer.OnReadMqMsg` on one connection, for as many rounds as there are before
      the actor is stopped. However the peer's stream is cut into chunks, and wherever reads time
      out or fail in between, the messages handed on are the first ones that the peer sent: one for
      each round that does not fail, and with those still in the buffer all that have arrived. On a
      negative length the source panics, with all messages before it handed on. */
  method OnReadMqMsg(mc: MqConn, conn: Conn, rounds: nat) returns (got: seq<Message>, failures: nat, panicked: bool)
    requires mc.Valid() && mc.conn != conn && conn.pos <= |conn.wire|
    modifies mc, mc.vector, conn`pos
    ensures old(conn.pos) <= conn.pos <= |conn.wire|
    ensures FirstSent(conn.wire[old(conn.pos)..], got)
    ensures !panicked ==> |got| + failures == rounds
    ensures !panicked ==> mc.vector != null && AllKept(conn.wire[old(conn.pos)..conn.pos], got, mc.vector.buffer)
    ensures var (ms, rest) := Decode(conn.wire[old(conn.pos)..conn.pos]);
      panicked ==> ms == got && LookAt(rest) == Negative
  {
    got, failures, panicked := [], 0, false;
    var changed := mc.SetConn(conn);
    var vector := mc.vector;
    ghost var first, stream := conn.pos, conn.wire[conn.pos..];
    hide Decode, FirstSent, Plain, LookAt, AllKept;
    for round := 0 to rounds
      invariant mc.Valid() && mc.conn == conn && mc.vector == vector && mc.out == got && mc.start == first
      invariant |got| + failures == round
    {
      changed := mc.SetConn(conn);
      var r := mc.ReadMqMsg();
      if r.Msg? {
        got := got + [r.m];
      } else if r.Panicked? {
        assert conn.wire[first..conn.pos] <= stream;
        DecodedWasSent(stream, conn.wire[first..conn.pos]);
        panicked := true;
        return;
      } else {
        failures := failures + 1;
      }
    }
    assert mc.consumed <= conn.wire[first..conn.pos] <= stream;
    DecodedWasSent(stream, mc.consumed);
    KeptByReader(mc.consumed, mc.vector.buffer, got);
  }

  // ---------- From the writer to the reader ----------

  lemma {:induction false} EncodeAppend(ms: seq<Message>, m: Message)
    ensures Encode(ms + [m]) == Encode(ms) + Frame(m)
  {
    hide Frame;
    if ms == [] {
      assert [m][1..] == [];
    } else {
      EncodeAppend(ms[1..], m);
      assert (ms + [m])[1..] == ms[1..] + [m];
      assert Frame(ms[0]) + (Encode(ms[1..]) + Frame(m)) == (Frame(ms[0]) + Encode(ms[1..])) + Frame(m);
    }
  }

  lemma EncodeNone()
    ensures Encode([]) == []
  {
  }

  /** The first `n` frames and a part of the next have been sent. */
  ghost predicate PartSent(before: seq<Byte>, ms: seq<Message>, n: nat, sent: seq<Byte>)
    requires n < |ms|
  {
    exists k: nat :: k <= |Frame(ms[n])| && sent == before + Encode(ms[..n]) + Frame(ms[n])[..k]
  }

  /** The one writer of a connection sends a list of messages, until a write fails. */
  method SendAll(mc: MqConn, ms: seq<Message>) returns (ok: bool, ghost n: nat)
    requires mc.conn != null
    modifies mc`isOk, mc.conn`sent
    ensures n <= |ms| && (ok ==> n == |ms|)
    ensures ok ==> mc.conn.sent == old(mc.conn.sent) + Encode(ms)
    ensures !ok ==> n < |ms| && PartSent(old(mc.conn.sent), ms, n, mc.conn.sent)
  {
    ghost var before := mc.conn.sent;
    n := 0;
    hide Encode, Frame;
    assert Encode(ms[..0]) == [] by { EncodeNone(); }
    for i := 0 to |ms|
      invariant n == i && mc.conn.sent == before + Encode(ms[..i])
    {
      ghost var sent := mc.conn.sent;
      ok := mc.Write(ms[i]);
      if !ok {
        return;
      }
      assert ms[..i + 1] == ms[..i] + [ms[i]];
      EncodeAppend(ms[..i], ms[i]);
      assert mc.conn.sent == before + (Encode(ms[..i]) + Frame(ms[i]));
      n := i + 1;
    }
    assert ms[..|ms|] == ms;
    ok := true;
  }

  /** Whatever part of the frames has been read, what was handed on and what is buffered are the
      first messages sent. */
  lemma ReceivedPart(ms: seq<Message>, part: seq<Byte>, got: seq<Message>, buffer: seq<Byte>)
    requires Sendable(ms) && part <= Encode(ms) && AllKept(part, got, buffer)
    ensures got + Decode(buffer).0 <= ms
    ensures part == Encode(ms) ==> got + Decode(buffer).0 == ms && Decode(buffer).1 == []
  {
    DecodePrefix(ms, part);
    var k: nat :| HasRead(ms, part, k);
    SendableIsNonEmpty(ms[..k]);
    DecodeEncode(ms);
    SendableIsNonEmpty(ms);
  }

  /** Round trip. A list of non-empty messages below 2^31 bytes is sent by one writer in writes however
      short, and read by a reader in chunks however small, with failures and reconnects in between:
      each round that does not fail returns the next message, so as many rounds as there are
      messages return exactly the list. The reader never panics. */
  method Transfer(writer: MqConn, reader: MqConn, ms: seq<Message>, rounds: nat)
    returns (ok: bool, got: seq<Message>, failures: nat, ghost conn: Conn?)
    requires writer.conn != null && Sendable(ms)
    requires reader.Valid() && reader != writer
    modifies writer`isOk, writer.conn`sent, reader, reader.vector
    ensures ok ==> got <= ms && |got| + failures == rounds
    ensures ok && rounds - failures >= |ms| ==> got == ms
    ensures ok ==> conn != null && reader.vector != null && conn.pos <= |conn.wire|
    ensures ok && conn.pos == |conn.wire| ==> got + Decode(reader.vector.buffer).0 == ms
  {
    ghost var n: nat;
    got, failures, conn := [], 0, null;
    var sent := |writer.conn.sent|;
    ok, n := SendAll(writer, ms);
    if !ok {
      return;
    }
    var c := new Conn(writer.conn.sent[sent..]);
    conn := c;
    var panicked;
    got, failures, panicked := OnReadMqMsg(reader, c, rounds);
    assert c.wire[0..] == c.wire == Encode(ms);
    ghost var part := c.wire[0..c.pos];
    if panicked {
      NeverNegative(ms, part);
    } else {
      ReceivedPart(ms, part, got, reader.vector.buffer);
      assert c.pos == |c.wire| ==> part == Encode(ms);
    }
  }

  lemma NeverNegative(ms: seq<Message>, part: seq<Byte>)
    requires Sendable(ms) && part <= Encode(ms)
    ensures LookAt(Decode(part).1) != Negative
  {
    DecodePrefix(ms, part);
  }
}
