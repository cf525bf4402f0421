/**
  What the reader of skpPublic/skpSocket/skpTcpSocket.go makes of a byte stream: one connection
  header unless the socket dialled out itself, then headers with their data. Pure functions; the
  buffers are in skp_reader.dfy.
 */
module SkpStream {
  import opened Bytes
  import opened Options
  import opened SkpCodec

  /** The check the reader makes on what it holds. */
  function Next(isConn: bool, d: seq<Byte>): (size: Option<nat>)
    ensures size.Some? ==> size.value <= |d|
  {
    if isConn then CheckHead(d) else CheckConnHead(d)
  }

  /** A header that announces no bytes at all: the reader cuts an empty frame and finds it again. */
  predicate Stuck(isConn: bool, d: seq<Byte>) {
    isConn && Next(isConn, d) == Some(0)
  }

  // ---------- One batch parse ----------

  /** The frames cut, whether the next header is an ordinary one, the bytes left over, and whether
      they begin with a header the reader cannot get past. */
  datatype Parsed = Parsed(frames: seq<seq<Byte>>, isConn: bool, rest: seq<Byte>, spins: bool)
  {
    function After(earlier: seq<seq<Byte>>): Parsed {
      this.(frames := earlier + frames)
    }
  }

  function Parse(isConn: bool, d: seq<Byte>): Parsed
    decreases |d|, !isConn
  {
    match Next(isConn, d)
    case None => Parsed([], isConn, d, false)
    case Some(size) =>
      if isConn && size == 0 then Parsed([], true, d, true)
      else Parse(true, d[size..]).After([d[..size]])
  }

  function Flat(parts: seq<seq<Byte>>): seq<Byte> {
    if parts == [] then [] else parts[0] + Flat(parts[1..])
  }

  lemma FlatCons(part: seq<Byte>, parts: seq<seq<Byte>>)
    ensures Flat([part] + parts) == part + Flat(parts)
  {
    assert ([part] + parts)[1..] == parts;
  }

  lemma Joined(d: seq<Byte>, n: nat, a: seq<Byte>, b: seq<Byte>)
    requires n <= |d| && a + b == d[n..]
    ensures (d[..n] + a) + b == d
  {
    assert (d[..n] + a) + b == d[..n] + (a + b);
  }

  /** No byte is lost, added or moved: the frames and the rest are the input. What is left over
      holds no complete frame, unless the reader spins on it. */
  lemma {:induction false} ParseConserves(isConn: bool, d: seq<Byte>)
    ensures var p := Parse(isConn, d); Flat(p.frames) + p.rest == d
    ensures var p := Parse(isConn, d); if p.spins then Stuck(p.isConn, p.rest) else Next(p.isConn, p.rest) == None
    decreases |d|, !isConn
  {
    hide Next;
    var size := Next(isConn, d);
    if size.Some? && !Stuck(isConn, d) {
      ParseConserves(true, d[size.value..]);
      FlatCons(d[..size.value], Parse(true, d[size.value..]).frames);
      Joined(d, size.value, Flat(Parse(true, d[size.value..]).frames), Parse(true, d[size.value..]).rest);
    }
  }

  lemma NextStays(isConn: bool, d: seq<Byte>, more: seq<Byte>)
    ensures Next(isConn, d).Some? ==> Next(isConn, d + more) == Next(isConn, d)
  {
    CheckStays(d, more);
  }

  /** Reading on: what more bytes add is what the leftover and they give together. */
  lemma {:induction false} ParseAppend(isConn: bool, d: seq<Byte>, more: seq<Byte>)
    ensures var p := Parse(isConn, d);
      Parse(isConn, d + more) ==
      if p.spins then p.(rest := p.rest + more) else Parse(p.isConn, p.rest + more).After(p.frames)
    decreases |d|, !isConn
  {
    hide Next;
    NextStays(isConn, d, more);
    var size := Next(isConn, d);
    if size.None? {
      AfterNothing(Parse(isConn, d + more));
    } else if !Stuck(isConn, d) {
      var n := size.value;
      ParseAppend(true, d[n..], more);
      assert (d + more)[n..] == d[n..] + more && (d + more)[..n] == d[..n];
      var p := Parse(true, d[n..]);
      AfterTwice(Parse(p.isConn, p.rest + more), p.frames, [d[..n]]);
    }
  }

  lemma AfterNothing(p: Parsed)
    ensures p.After([]) == p
  {
    assert [] + p.frames == p.frames;
  }

  lemma AfterTwice(p: Parsed, a: seq<seq<Byte>>, b: seq<seq<Byte>>)
    ensures p.After(a).After(b) == p.After(b + a)
  {
    assert b + (a + p.frames) == (b + a) + p.frames;
  }

  // ---------- Fragmentation ----------

  /** Reading chunk by chunk, cutting all frames after each; nothing is read past a stuck header. */
  function Feed(isConn: bool, d: seq<Byte>, chunks: seq<seq<Byte>>): Parsed
    decreases |chunks|
  {
    if chunks == [] then Parsed([], isConn, d, false) else
    var p := Parse(isConn, d + chunks[0]);
    if p.spins then p else Feed(p.isConn, p.rest, chunks[1..]).After(p.frames)
  }

  /** However the stream is cut into reads, the frames are those of one parse of the whole. */
  lemma {:induction false} FragmentationIndependent(isConn: bool, d: seq<Byte>, chunks: seq<seq<Byte>>)
    requires Next(isConn, d) == None
    ensures var whole := Parse(isConn, d + Flat(chunks)); var fed := Feed(isConn, d, chunks);
      fed.frames == whole.frames && fed.spins == whole.spins && (!whole.spins ==> fed == whole)
    decreases |chunks|
  {
    if chunks == [] {
      assert d + Flat(chunks) == d;
    } else {
      var p := Parse(isConn, d + chunks[0]);
      assert d + Flat(chunks) == (d + chunks[0]) + Flat(chunks[1..]);
      ParseAppend(isConn, d + chunks[0], Flat(chunks[1..]));
      ParseConserves(isConn, d + chunks[0]);
      if !p.spins {
        FragmentationIndependent(p.isConn, p.rest, chunks[1..]);
      }
    }
  }

  // ---------- The inner loop ----------

  /** One pass: the frames it cuts, and whether the loop goes round again. */
  datatype Pass = Pass(frames: seq<seq<Byte>>, isConn: bool, rest: seq<Byte>, more: bool)

  function PassHead(d: seq<Byte>): Pass {
    match CheckHead(d)
    case None => Pass([], true, d, false)
    case Some(size) => Pass([d[..size]], true, d[size..], true)
  }

  function PassOf(isConn: bool, d: seq<Byte>): Pass {
    if isConn then PassHead(d) else
    match CheckConnHead(d)
    case None => Pass([], false, d, false)
    case Some(size) => var p := PassHead(d[size..]); p.(frames := [d[..size]] + p.frames)
  }

  function Passes(isConn: bool, d: seq<Byte>, n: nat): Pass
    decreases n
  {
    if n == 0 then Pass([], isConn, d, true) else
    var p := PassOf(isConn, d);
    if !p.more then p else
    var q := Passes(p.isConn, p.rest, n - 1);
    q.(frames := p.frames + q.frames)
  }

  /** The frames `done` have been cut of what `whole` cuts; if `more`, `n` passes are left for `d`. */
  predicate Going(whole: Pass, done: seq<seq<Byte>>, isConn: bool, d: seq<Byte>, more: bool, n: nat) {
    var rest := if more then Passes(isConn, d, n) else Pass([], isConn, d, false);
    whole == rest.(frames := done + rest.frames)
  }

  lemma GoingStep(whole: Pass, done: seq<seq<Byte>>, isConn: bool, d: seq<Byte>, n: nat)
    requires n > 0 && Going(whole, done, isConn, d, true, n)
    ensures var p := PassOf(isConn, d); Going(whole, done + p.frames, p.isConn, p.rest, p.more, n - 1)
  {
    hide PassOf;
    var p := PassOf(isConn, d);
    var q := Passes(p.isConn, p.rest, n - 1);
    assert done + (p.frames + q.frames) == (done + p.frames) + q.frames;
    assert done + p.frames == (done + p.frames) + [];
  }

  lemma GoingStarts(isConn: bool, d: seq<Byte>, n: nat)
    ensures Going(Passes(isConn, d, n), [], isConn, d, true, n)
  {
    var whole := Passes(isConn, d, n);
    assert [] + whole.frames == whole.frames;
  }

  lemma GoingEnds(whole: Pass, done: seq<seq<Byte>>, isConn: bool, d: seq<Byte>, more: bool, n: nat)
    requires Going(whole, done, isConn, d, more, n) && (!more || n == 0)
    ensures whole == Pass(done, isConn, d, more)
  {
    assert done + [] == done;
  }

  lemma PassParses(isConn: bool, d: seq<Byte>)
    ensures var p := PassOf(isConn, d); Parse(p.isConn, p.rest).spins == Parse(isConn, d).spins
    ensures Parse(isConn, d).spins ==> PassOf(isConn, d).more
    ensures var p := PassOf(isConn, d);
      !Parse(isConn, d).spins ==> Parse(isConn, d) == Parse(p.isConn, p.rest).After(p.frames)
    ensures !Parse(isConn, d).spins && PassOf(isConn, d).more ==> |PassOf(isConn, d).rest| < |d|
  {
    var size := Next(isConn, d);
    if !isConn && size.Some? {
      var e := d[size.value..];
      if CheckHead(e).Some? && CheckHead(e).value > 0 {
        var q := Parse(true, e[CheckHead(e).value..]);
        var fs := [d[..size.value]] + [e[..CheckHead(e).value]];
        assert fs + q.frames == [d[..size.value]] + ([e[..CheckHead(e).value]] + q.frames);
      }
    }
  }

  lemma PassStops(isConn: bool, d: seq<Byte>)
    ensures var p := PassOf(isConn, d); !p.more ==> Next(p.isConn, p.rest) == None
  {
  }

  lemma {:induction false} SpinsForever(isConn: bool, d: seq<Byte>, n: nat)
    requires Parse(isConn, d).spins
    ensures Passes(isConn, d, n).more
    decreases n
  {
    hide PassOf, Parse;
    if n > 0 {
      PassParses(isConn, d);
      SpinsForever(PassOf(isConn, d).isConn, PassOf(isConn, d).rest, n - 1);
    }
  }

  lemma {:induction false} StopsWithin(isConn: bool, d: seq<Byte>)
    requires !Parse(isConn, d).spins
    ensures var p := Passes(isConn, d, |d| + 1);
      !p.more && Parsed(p.frames, p.isConn, p.rest, false) == Parse(isConn, d)
    decreases |d|
  {
    hide PassOf;
    PassParses(isConn, d);
    var p := PassOf(isConn, d);
    if p.more {
      StopsWithin(p.isConn, p.rest);
      MorePasses(p.isConn, p.rest, |p.rest| + 1, |d|);
    } else {
      PassStops(isConn, d);
      assert Parse(p.isConn, p.rest) == Parsed([], p.isConn, p.rest, false);
    }
  }

  lemma {:induction false} MorePasses(isConn: bool, d: seq<Byte>, n: nat, m: nat)
    requires n <= m && !Passes(isConn, d, n).more
    ensures Passes(isConn, d, m) == Passes(isConn, d, n)
    decreases n
  {
    hide PassOf;
    var p := PassOf(isConn, d);
    if p.more {
      MorePasses(p.isConn, p.rest, n - 1, m - 1);
    }
  }

  lemma LoopEnds(isConn: bool, d: seq<Byte>, n: nat)
    requires Passes(isConn, d, n).more
    ensures Parse(isConn, d).spins || n <= |d|
  {
    if !Parse(isConn, d).spins && n > |d| {
      StopsWithin(isConn, d);
      MorePasses(isConn, d, |d| + 1, n);
    }
  }

  /** When the loop has ended, however many passes it was given, it has cut the batch parse. */
  lemma StoppedIsParsed(isConn: bool, d: seq<Byte>, n: nat)
    requires !Passes(isConn, d, n).more
    ensures var p := Passes(isConn, d, n); Parse(isConn, d) == Parsed(p.frames, p.isConn, p.rest, false)
  {
    if Parse(isConn, d).spins {
      SpinsForever(isConn, d, n);
    } else {
      StopsWithin(isConn, d);
      if n <= |d| + 1 {
        MorePasses(isConn, d, n, |d| + 1);
      } else {
        MorePasses(isConn, d, |d| + 1, n);
      }
    }
  }

  /** The inner loop ends exactly when no ordinary header at a frame boundary announces zero bytes,
      and then it has cut the frames of the batch parse. */
  lemma InnerLoopStops(isConn: bool, d: seq<Byte>)
    ensures (exists n: nat :: !Passes(isConn, d, n).more) <==> !Parse(isConn, d).spins
    ensures forall n: nat :: !Passes(isConn, d, n).more ==> Passes(isConn, d, n).frames == Parse(isConn, d).frames
  {
    if Parse(isConn, d).spins {
      forall n: nat ensures Passes(isConn, d, n).more {
        SpinsForever(isConn, d, n);
      }
    } else {
      StopsWithin(isConn, d);
      forall n: nat | !Passes(isConn, d, n).more ensures Passes(isConn, d, n).frames == Parse(isConn, d).frames {
        StoppedIsParsed(isConn, d, n);
      }
    }
  }

  // ---------- Sender and reader ----------

  /** A packet as the senders build it: the header gives its own size and that of the data. */
  datatype Packet = Packet(head: Head, data: seq<Byte>)
  {
    predicate Valid() {
      Fits(head.Fields(), HEAD_WIDTHS) && head.headSize == HEAD_SIZE && head.dataSize == |data|
    }
    function Bytes(): seq<Byte> {
      EncodeHead(head) + data
    }
  }

  function Wire(packets: seq<Packet>): seq<Byte> {
    if packets == [] then [] else packets[0].Bytes() + Wire(packets[1..])
  }

  function Frames(packets: seq<Packet>): seq<seq<Byte>> {
    seq(|packets|, i requires 0 <= i < |packets| => packets[i].Bytes())
  }

  predicate ValidConnHead(h: ConnHead) {
    Fits(h.Fields(), CONN_WIDTHS) && h.headSize == CONN_SIZE && h.dataSize == 0
  }

  lemma PacketIsFrame(p: Packet, more: seq<Byte>)
    requires p.Valid()
    ensures CheckHead(p.Bytes() + more) == Some(|p.Bytes()|)
  {
    HeadRoundTrip(p.head, p.data + more);
    assert p.Bytes() + more == EncodeHead(p.head) + (p.data + more);
  }

  lemma {:induction false} WireParses(packets: seq<Packet>)
    requires forall i :: 0 <= i < |packets| ==> packets[i].Valid()
    ensures Parse(true, Wire(packets)) == Parsed(Frames(packets), true, [], false)
  {
    if packets != [] {
      PacketIsFrame(packets[0], Wire(packets[1..]));
      WireParses(packets[1..]);
      var b := packets[0].Bytes();
      assert Wire(packets)[..|b|] == b && Wire(packets)[|b|..] == Wire(packets[1..]);
    }
  }

  /** What a dialling socket sends is cut by the accepting one into exactly its header and packets. */
  lemma ConversationParses(h: ConnHead, packets: seq<Packet>)
    requires ValidConnHead(h) && forall i :: 0 <= i < |packets| ==> packets[i].Valid()
    ensures var p := Parse(false, EncodeConnHead(h) + Wire(packets));
      && !p.spins && p.rest == []
      && p.frames == [EncodeConnHead(h)] + Frames(packets)
  {
    var b := EncodeConnHead(h);
    ConnHeadRoundTrip(h, Wire(packets));
    WireParses(packets);
    var d := b + Wire(packets);
    assert d[..CONN_SIZE] == b && d[CONN_SIZE..] == Wire(packets);
    assert CheckConnHead(d) == Some(CONN_SIZE);
  }

  // ---------- The worker's second look ----------

  /** The worker checks each frame again, on the frame alone: it accepts it exactly when the header
      announced at least its own encoded size. */
  lemma SecondCheck(d: seq<Byte>, connType: nat)
    ensures var size := CheckHead(d);
      size.Some? ==> CheckHead(d[..size.value]) == (if size.value >= HEAD_SIZE then size else None)
    ensures var size := CheckConnHead(d);
      size.Some? ==> CheckConnHead(d[..size.value]) == (if size.value >= CONN_SIZE then size else None)
    ensures var size := CheckHead(d);
      size.Some? ==> (Worker(true, connType).Accepts(d[..size.value]) <==> size.value >= 72)
    ensures var size := CheckConnHead(d);
      size.Some? ==> (Worker(false, connType).Load(d[..size.value]).isConn <==> size.value >= 32)
    ensures !Worker(false, connType).Accepts(d)
  {
    Offsets();
    if CheckHead(d).Some? && CheckHead(d).value >= HEAD_SIZE {
      var n := CheckHead(d).value;
      assert d == d[..n] + d[n..];
      UnpackPrefix(d[..n], d[n..], HEAD_WIDTHS, 15);
    }
    if CheckConnHead(d).Some? && CheckConnHead(d).value >= CONN_SIZE {
      var n := CheckConnHead(d).value;
      assert d == d[..n] + d[n..];
      UnpackPrefix(d[..n], d[n..], CONN_WIDTHS, 11);
    }
  }

  /** What the worker knows of the connection (`IsConn`, `ProtocalConnHead.ConnType`). */
  datatype Worker = Worker(isConn: bool, connType: nat)
  {
    /** `SkpLoadConnHead` or `SkpLoadHead` on the next frame. */
    function Load(frame: seq<Byte>): Worker {
      if isConn || |frame| < CONN_SIZE then this
      else Worker(CheckConnHead(frame).Some?, DecodeConnHead(frame).connType)
    }

    /** The frame goes to `SkpData`. */
    predicate Accepts(frame: seq<Byte>) {
      isConn && CheckHead(frame).Some?
    }

    /** `SkpSetAddrSocket` writes into the frame. */
    predicate Patches(frame: seq<Byte>) {
      Accepts(frame) && connType == CONN_TYPE_CLIENT
    }
  }

  const CONN_TYPE_CLIENT := 0

  function WorkerAfter(start: Worker, frames: seq<seq<Byte>>, n: nat): Worker
    requires n <= |frames|
  {
    if n == 0 then start else WorkerAfter(start, frames, n - 1).Load(frames[n - 1])
  }

  lemma {:induction false} WorkerSame(start: Worker, frames: seq<seq<Byte>>, frame: seq<Byte>, n: nat)
    requires n <= |frames|
    ensures WorkerAfter(start, frames + [frame], n) == WorkerAfter(start, frames, n)
  {
    if n > 0 {
      WorkerSame(start, frames, frame, n - 1);
    }
  }

  /** The worker knows its connection exactly if some frame passed the check of a connection header,
      and the connection type that it acts on from then on is that of the first such frame. */
  lemma {:induction false} WorkerLearns(frames: seq<seq<Byte>>, n: nat, connType: nat)
    requires n <= |frames|
    ensures var w := WorkerAfter(Worker(false, connType), frames, n);
      && (w.isConn <==> exists i :: 0 <= i < n && CheckConnHead(frames[i]).Some?)
      && forall i :: 0 <= i < n && IsFirstConnHead(frames, i) ==> w.connType == DecodeConnHead(frames[i]).connType
  {
    if n > 0 {
      WorkerLearns(frames, n - 1, connType);
    }
  }

  predicate IsFirstConnHead(frames: seq<seq<Byte>>, i: nat)
    requires i < |frames|
  {
    CheckConnHead(frames[i]).Some? && forall j :: 0 <= j < i ==> CheckConnHead(frames[j]).None?
  }

  /** A socket that dialled out itself knows its connection and reads packets from the start. */
  lemma {:induction false} DialledStays(frames: seq<seq<Byte>>, n: nat, connType: nat)
    requires n <= |frames|
    ensures WorkerAfter(Worker(true, connType), frames, n) == Worker(true, connType)
  {
    if n > 0 {
      DialledStays(frames, n - 1, connType);
    }
  }

  /** Of a conversation the worker takes the first frame for the header. It accepts every packet
      behind it, and patches the packet exactly if the header is that of a client, connection type 0. */
  lemma {:induction false} WorkerFollows(h: ConnHead, packets: seq<Packet>, n: nat, connType: nat)
    requires ValidConnHead(h) && forall i :: 0 <= i < |packets| ==> packets[i].Valid()
    requires n <= |packets|
    ensures var frames := [EncodeConnHead(h)] + Frames(packets);
      var w := WorkerAfter(Worker(false, connType), frames, n + 1);
      && w == Worker(true, h.connType)
      && (n < |packets| ==> w.Accepts(frames[n + 1]) && (w.Patches(frames[n + 1]) <==> h.connType == 0))
  {
    hide CheckConnHead, CheckHead, DecodeConnHead, EncodeConnHead, Packet.Valid, Packet.Bytes;
    var frames := [EncodeConnHead(h)] + Frames(packets);
    if n == 0 {
      HeaderIsLearnt(h, connType);
      assert WorkerAfter(Worker(false, connType), frames, 0) == Worker(false, connType);
    } else {
      WorkerFollows(h, packets, n - 1, connType);
    }
    if n < |packets| {
      PacketIsTaken(packets[n], h.connType);
      assert frames[n + 1] == packets[n].Bytes();
    }
  }

  lemma HeaderIsLearnt(h: ConnHead, connType: nat)
    requires ValidConnHead(h)
    ensures Worker(false, connType).Load(EncodeConnHead(h)) == Worker(true, h.connType)
  {
    ConnHeadRoundTrip(h, []);
    assert EncodeConnHead(h) + [] == EncodeConnHead(h);
  }

  lemma PacketIsTaken(p: Packet, connType: nat)
    requires p.Valid()
    ensures var w := Worker(true, connType);
      && w.Load(p.Bytes()) == w && w.Accepts(p.Bytes())
      && (w.Patches(p.Bytes()) <==> connType == 0)
  {
    PacketIsFrame(p, []);
    assert p.Bytes() + [] == p.Bytes();
  }
}
