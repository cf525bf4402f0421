/**
  The receiving half of skpPublic/skpSocket/skpTcpSocket.go on the heap: a buffer that is a slice of
  a shared array, frames that are sub-slices of it handed to another goroutine without copying, and
  the worker that writes into such a frame afterwards.
 */
module SkpReader {
  import opened Bytes
  import opened Options
  import opened SkpCodec
  import opened SkpStream

  const DATA_CACHE_MAX := 16384

  /** A Go slice: `len` bytes of an array from `off` on, and room for `cap` of them. */
  datatype Slice = Slice(arr: array<Byte>, off: nat, len: nat, cap: nat)
  {
    ghost predicate Ok() {
      len <= cap && off + cap <= arr.Length
    }

    /** Within one array, this slice's bytes come before those of `s`. */
    ghost predicate Ahead(s: Slice) {
      arr == s.arr ==> off + len <= s.off
    }
  }

  /** The bytes a slice shows now. */
  function Content(s: Slice): (b: seq<Byte>)
    requires s.Ok()
    reads s.arr
    ensures |b| == s.len
  {
    s.arr[s.off..s.off + s.len]
  }

  ghost predicate Laid(frames: seq<Slice>, datas: Slice) {
    && (forall i :: 0 <= i < |frames| ==> frames[i].Ok() && frames[i].Ahead(datas))
    && (forall i, j :: 0 <= i < j < |frames| ==> frames[i].Ahead(frames[j]))
  }

  function First(s: Slice, size: nat): Slice {
    s.(len := size)
  }

  function Rest(s: Slice, size: nat): Slice
    requires size <= s.len && size <= s.cap
  {
    Slice(s.arr, s.off + size, s.len - size, s.cap - size)
  }

  /** Slicing the held bytes in two keeps the frames apart from each other and from the rest. */
  lemma LaidCut(frames: seq<Slice>, datas: Slice, size: nat)
    requires datas.Ok() && Laid(frames, datas) && size <= datas.len
    ensures Laid(frames + [First(datas, size)], Rest(datas, size))
    ensures forall i :: 0 <= i < |frames| ==> frames[i].Ok()
  {
  }

  lemma LaidOk(frames: seq<Slice>, datas: Slice)
    requires Laid(frames, datas)
    ensures forall k :: 0 <= k < |frames| ==> frames[k].Ok()
  {
  }

  method CopyInto(arr: array<Byte>, at: nat, data: seq<Byte>)
    requires at + |data| <= arr.Length
    modifies arr
    ensures arr[..] == old(arr[..at]) + data + old(arr[at + |data|..])
  {
    forall i | 0 <= i < |data| {
      arr[at + i] := data[i];
    }
  }

  /** Writing inside a range of the whole is writing inside that part. */
  lemma PartOfSplice(a: seq<Byte>, b: seq<Byte>, off: nat, end: nat, at: nat, data: seq<Byte>)
    requires off <= at && at + |data| <= end <= |a|
    requires b == a[..at] + data + a[at + |data|..]
    ensures b[off..end] == a[off..end][..at - off] + data + a[off..end][at - off + |data|..]
  {
    var part := a[off..end][..at - off] + data + a[off..end][at - off + |data|..];
    assert |b| == |a| && |part| == end - off;
    forall i | 0 <= i < end - off
      ensures b[off..end][i] == part[i]
    {
      if at - off + |data| <= i {
        assert b[off + i] == a[off + i];
      }
    }
  }

  method PatchBytes(s: Slice, serverID: nat, addrSocket: nat)
    requires s.Ok() && s.len >= HEAD_SIZE
    modifies s.arr
    ensures Content(s) == Patched(old(Content(s)), serverID, addrSocket)
    ensures forall i :: 0 <= i < s.arr.Length && !(s.off <= i < s.off + s.len) ==> s.arr[i] == old(s.arr[i])
  {
    ghost var a, was := s.arr[..], Content(s);
    CopyInto(s.arr, s.off + 24, ToLittle(serverID, 4));
    ghost var b, half := s.arr[..], Content(s);
    PartOfSplice(a, b, s.off, s.off + s.len, s.off + 24, ToLittle(serverID, 4));
    assert half == was[..24] + ToLittle(serverID, 4) + was[28..];
    CopyInto(s.arr, s.off + 32, ToLittle(addrSocket, 8));
    PartOfSplice(b, s.arr[..], s.off, s.off + s.len, s.off + 32, ToLittle(addrSocket, 8));
    assert Content(s) == half[..32] + ToLittle(addrSocket, 8) + half[40..];
    assert half[..32] == was[..24] + ToLittle(serverID, 4) + was[28..32] && half[40..] == was[40..];
  }

  /** A new array with the bytes of `s`, then `data`, then room. */
  method Grown(s: Slice, data: seq<Byte>) returns (d: Slice)
    requires s.Ok()
    ensures d.Ok() && fresh(d.arr) && Content(d) == Content(s) + data
    ensures d == Slice(d.arr, 0, s.len + |data|, s.len + |data| + 16384)
  {
    var n := s.len + |data| + DATA_CACHE_MAX;
    var arr := new Byte[n](_ => 0);
    CopyInto(arr, 0, Content(s));
    CopyInto(arr, s.len, data);
    d := Slice(arr, 0, s.len + |data|, n);
  }

  /** The frames cut and the bytes held account for everything received. The last `spun` cuts are
      the empty frames of a stuck header. */
  ghost predicate Accounts(isOwner: bool, received: seq<Byte>, cut: seq<seq<Byte>>, spun: nat, isConn: bool,
      held: seq<Byte>) {
    && spun <= |cut|
    && Parse(isOwner, received) == Parse(isConn, held).After(cut[..|cut| - spun])
    && (spun > 0 ==> Stuck(isConn, held))
  }

  lemma AccountsStart(isOwner: bool)
    ensures Accounts(isOwner, [], [], 0, isOwner, [])
  {
  }

  lemma AccountsAppend(isOwner: bool, received: seq<Byte>, cut: seq<seq<Byte>>, isConn: bool, held: seq<Byte>,
      more: seq<Byte>)
    requires Accounts(isOwner, received, cut, 0, isConn, held)
    ensures Accounts(isOwner, received + more, cut, 0, isConn, held + more)
  {
    hide Parse;
    ParseAppend(isOwner, received, more);
    ParseAppend(isConn, held, more);
    var p := Parse(isConn, held);
    var q := Parse(p.isConn, p.rest + more);
    assert cut[..|cut|] == cut;
    assert (cut + p.frames) + q.frames == cut + (p.frames + q.frames);
  }

  function Spun(spun: nat, isConn: bool, held: seq<Byte>): nat {
    if Stuck(isConn, held) then spun + 1 else 0
  }

  lemma AccountsCut(isOwner: bool, received: seq<Byte>, cut: seq<seq<Byte>>, spun: nat, isConn: bool, held: seq<Byte>)
    requires Accounts(isOwner, received, cut, spun, isConn, held) && Next(isConn, held).Some?
    ensures var size := Next(isConn, held).value;
      Accounts(isOwner, received, cut + [held[..size]], Spun(spun, isConn, held), true, held[size..])
  {
    hide Next;
    var size := Next(isConn, held).value;
    var cut' := cut + [held[..size]];
    if Stuck(isConn, held) {
      assert held[size..] == held;
      assert cut'[..|cut'| - (spun + 1)] == cut[..|cut| - spun];
    } else {
      assert cut'[..|cut'|] == cut' && cut[..|cut|] == cut;
      var p := Parse(true, held[size..]);
      assert cut + ([held[..size]] + p.frames) == cut' + p.frames;
    }
  }

  lemma WorkersSame(start: Worker, cut: seq<seq<Byte>>, frame: seq<Byte>)
    ensures forall k :: 0 <= k <= |cut| ==> WorkerAfter(start, cut + [frame], k) == WorkerAfter(start, cut, k)
  {
    forall k | 0 <= k <= |cut|
      ensures WorkerAfter(start, cut + [frame], k) == WorkerAfter(start, cut, k)
    {
      WorkerSame(start, cut, frame, k);
    }
  }

  class Socket {
    const isOwner: bool
    const serverID: nat
    const addrSocket: nat
    const start: Worker

    // The reader goroutine.
    var datas: Slice
    var isConn: bool
    // All frames ever sent on ReadChan, and how many of them the worker has received.
    var frames: seq<Slice>
    var taken: nat
    // The worker goroutine.
    var worker: Worker

    ghost var received: seq<Byte>
    ghost var cut: seq<seq<Byte>>
    ghost var spun: nat

    /** What frame `k` shows: the bytes cut, or those with the worker's patch once it has been there. */
    ghost function Shown(k: nat): (b: seq<Byte>)
      requires k < |cut|
      reads `cut, `taken
      ensures |b| == |cut[k]|
    {
      if k < taken && WorkerAfter(start, cut, k).Patches(cut[k])
      then Patched(cut[k], serverID, addrSocket)
      else cut[k]
    }

    /** In the header's terms: a patched frame carries the receiving server's id and the socket's
        address, and is otherwise the frame that was received. */
    lemma ShownHeader(k: nat)
      requires k < |cut| && k < taken && WorkerAfter(start, cut, k).Patches(cut[k])
      requires serverID < Pow256(4) && addrSocket < Pow256(8)
      ensures DecodeHead(Shown(k)) == DecodeHead(cut[k]).(proxyID := serverID, addrSocket := addrSocket)
      ensures Shown(k)[HEAD_SIZE..] == cut[k][HEAD_SIZE..]
    {
      PatchMeetsCodec(cut[k], serverID, addrSocket);
    }

    /** Of a conversation, the worker hands packet `k` on as it was sent, with the patch exactly if the
        header is that of a client, connection type 0. */
    lemma ConversationShown(h: ConnHead, packets: seq<Packet>, k: nat, connType: nat)
      requires ValidConnHead(h) && forall i :: 0 <= i < |packets| ==> packets[i].Valid()
      requires received == EncodeConnHead(h) + Wire(packets) && cut == Parse(false, received).frames
      requires start == Worker(false, connType) && k < |packets| && k + 1 < taken
      ensures |cut| == |packets| + 1 && WorkerAfter(start, cut, k + 1).Accepts(cut[k + 1])
      ensures Shown(k + 1) == if h.connType == 0
        then Patched(packets[k].Bytes(), serverID, addrSocket) else packets[k].Bytes()
    {
      ConversationParses(h, packets);
      WorkerFollows(h, packets, k, connType);
      hide Parse, WorkerAfter, Patched, EncodeConnHead, Packet.Bytes, Packet.Valid, ValidConnHead;
      assert cut == [EncodeConnHead(h)] + Frames(packets) && cut[k + 1] == packets[k].Bytes();
    }

    ghost predicate Shows(k: nat)
      requires k < |cut| && k < |frames| && frames[k].Ok()
      reads `cut, `taken, `frames, frames[k].arr
    {
      Content(frames[k]) == Shown(k)
    }

    ghost predicate Shape()
      reads `datas, `frames, `taken, `worker, `cut
    {
      && datas.Ok() && Laid(frames, datas)
      && |cut| == |frames|
      && taken <= |frames|
      && worker == WorkerAfter(start, cut, taken)
    }

    ghost predicate Showing()
      requires Shape()
      reads `datas, `frames, `taken, `worker, `cut, set s | s in frames :: s.arr
    {
      forall k :: 0 <= k < |frames| ==> Shows(k)
    }

    ghost predicate Valid()
      reads this, datas.arr, set s | s in frames :: s.arr
    {
      && Shape()
      && Showing()
      && Accounts(isOwner, received, cut, spun, isConn, Content(datas))
    }

    twostate lemma SameShows()
      requires old(Shape()) && old(Showing()) && Shape()
      requires cut == old(cut) && frames == old(frames) && taken == old(taken)
      requires forall k :: 0 <= k < |frames| ==> frames[k].Ok() && Content(frames[k]) == old(Content(frames[k]))
      ensures Showing()
    {
      hide WorkerAfter, Laid, Patched, Worker.Patches;
      forall k | 0 <= k < |frames|
        ensures Shows(k)
      {
        assert old(Shows(k));
      }
    }

    twostate lemma OneMoreTaken()
      requires old(Shape()) && old(Showing()) && Shape() && cut == old(cut) && frames == old(frames)
      requires taken == old(taken) + 1 && frames[old(taken)].Ok()
      requires Content(frames[old(taken)]) == Shown(old(taken))
      requires forall k :: 0 <= k < |frames| && k != old(taken) ==>
        frames[k].Ok() && Content(frames[k]) == old(Content(frames[k]))
      ensures Showing()
    {
      hide WorkerAfter, Laid, Patched, Worker.Patches;
      LaidOk(frames, datas);
      forall k | 0 <= k < |frames|
        ensures frames[k].Ok() && Shows(k)
      {
        if k != old(taken) {
          assert old(Shows(k));
        }
      }
    }

    twostate lemma OneMoreShows(frame: seq<Byte>)
      requires old(Shape()) && old(Showing()) && Shape() && taken == old(taken)
      requires |frames| == |old(frames)| + 1 && frames[..|old(frames)|] == old(frames)
      requires cut == old(cut) + [frame] && Content(frames[|frames| - 1]) == frame
      requires forall k :: 0 <= k < |old(frames)| ==> Content(frames[k]) == old(Content(frames[k]))
      ensures Showing()
    {
      hide WorkerAfter, Laid, Patched, Worker.Patches;
      WorkersSame(start, old(cut), frame);
      LaidOk(frames, datas);
      forall k | 0 <= k < |frames|
        ensures frames[k].Ok() && Shows(k)
      {
        if k < |frames| - 1 {
          assert frames[k] == old(frames)[k];
          assert old(Shows(k));
        }
      }
    }

    /** The worker's write reaches no byte of another frame, nor of what the reader still holds. */
    twostate lemma PatchIsLocal(k: nat)
      requires Shape() && k < |frames| && frames[k].Ok()
      requires old(allocated(this)) && old(frames) == frames && old(datas) == datas
      requires forall i :: 0 <= i < frames[k].arr.Length && !(frames[k].off <= i < frames[k].off + frames[k].len) ==>
        frames[k].arr[i] == old(frames[k].arr[i])
      requires forall j :: 0 <= j < |frames| && frames[j].arr != frames[k].arr ==> unchanged(frames[j].arr)
      requires datas.arr != frames[k].arr ==> unchanged(datas.arr)
      ensures Content(datas) == old(Content(datas))
      ensures forall j :: 0 <= j < |frames| && j != k ==>
        frames[j].Ok() && Content(frames[j]) == old(Content(frames[j]))
    {
      forall j | 0 <= j < |frames| && j != k
        ensures frames[j].Ok() && Content(frames[j]) == old(Content(frames[j]))
      {
        assert frames[j].Ok();
        if frames[j].arr == frames[k].arr {
          assert if j < k then frames[j].Ahead(frames[k]) else frames[k].Ahead(frames[j]);
        }
      }
      assert frames[k].Ahead(datas);
    }

    constructor (isOwner: bool, connType: nat, serverID: nat, addrSocket: nat)
      ensures Valid() && fresh(datas.arr) && datas == Slice(datas.arr, 0, 0, 16384)
      ensures this.isOwner == isOwner && this.serverID == serverID && this.addrSocket == addrSocket
      ensures start == worker == Worker(isOwner, connType) && this.isConn == isOwner
      ensures frames == [] && taken == 0 && received == [] && Content(datas) == []
    {
      hide Parse, Accounts;
      this.isOwner, this.serverID, this.addrSocket := isOwner, serverID, addrSocket;
      this.start, this.worker := Worker(isOwner, connType), Worker(isOwner, connType);
      var arr := new Byte[DATA_CACHE_MAX](_ => 0);
      this.datas, this.isConn := Slice(arr, 0, 0, DATA_CACHE_MAX), isOwner;
      this.frames, this.taken := [], 0;
      this.received, this.cut, this.spun := [], [], 0;
      new;
      AccountsStart(isOwner);
      assert Content(datas) == [];
    }

    /** `SkpAppendData`: behind the held bytes when the array has more room than needed, else into a
        new array, to which only the held bytes move. */
    method AppendData(data: seq<Byte>)
      requires Shape()
      modifies `datas, datas.arr
      ensures Shape()
      ensures Content(datas) == old(Content(datas)) + data
      ensures forall k :: 0 <= k < |frames| ==> Content(frames[k]) == old(Content(frames[k]))
      ensures var d := old(datas);
        if |data| < d.cap - d.len then datas == d.(len := d.len + |data|)
        else fresh(datas.arr) && datas == Slice(datas.arr, 0, d.len + |data|, d.len + |data| + 16384)
    {
      hide WorkerAfter;
      var left := datas.cap - datas.len;
      if left > |data| {
        CopyInto(datas.arr, datas.off + datas.len, data);
        datas := datas.(len := datas.len + |data|);
      } else {
        var d := Grown(datas, data);
        datas := d;
      }
    }

    /** What one successful read of the connection brings, before any frame is cut. The reader comes
        back to reading only when what it holds is no complete frame. */
    method Receive(data: seq<Byte>)
      requires Valid() && Next(isConn, Content(datas)) == None
      modifies `datas, `received, datas.arr
      ensures Valid()
      ensures Content(datas) == old(Content(datas)) + data
      ensures received == old(received) + data
      ensures forall k :: 0 <= k < |frames| ==> Content(frames[k]) == old(Content(frames[k]))
      ensures datas.arr == old(datas.arr) || fresh(datas.arr)
    {
      hide Parse, Next, WorkerAfter, Laid;
      LaidOk(frames, datas);
      AccountsAppend(isOwner, received, cut, isConn, Content(datas), data);
      AppendData(data);
      received := received + data;
      SameShows();
    }

    /** The first `size` bytes go to ReadChan as they lie in the array, and are skipped
        (`SkpGetData`, `SkpSkipData`). */
    method Deliver(size: nat)
      requires Valid() && Next(isConn, Content(datas)) == Some(size)
      modifies `datas, `isConn, `frames, `cut, `spun
      ensures Valid()
      ensures isConn && datas.arr == old(datas.arr)
      ensures var d := old(datas); size <= d.len && datas == Slice(d.arr, d.off + size, d.len - size, d.cap - size)
      ensures Content(datas) == old(Content(datas))[size..]
      ensures frames == old(frames) + [old(datas).(len := size)]
      ensures cut == old(cut) + [old(Content(datas))[..size]]
    {
      hide Parse, Next, Accounts, WorkerAfter, Stuck, Laid, Patched;
      LaidCut(frames, datas, size);
      ghost var held := Content(datas);
      ghost var cut' := cut + [held[..size]];
      AccountsCut(isOwner, received, cut, spun, isConn, held);
      WorkersSame(start, cut, held[..size]);
      cut, spun := cut', Spun(spun, isConn, held);
      frames := frames + [First(datas, size)];
      datas := Rest(datas, size);
      isConn := true;
      assert Content(datas) == held[size..];
      assert Content(frames[|frames| - 1]) == held[..size];
      OneMoreShows(held[..size]);
    }

    /** One pass of the inner loop: the connection header if it is still to come, then one ordinary
        frame. */
    method CutPass() returns (more: bool)
      requires Valid()
      modifies `datas, `isConn, `frames, `cut, `spun
      ensures Valid()
      ensures datas.arr == old(datas.arr) && |old(frames)| <= |frames| && frames[..|old(frames)|] == old(frames)
      ensures var p := PassOf(old(isConn), old(Content(datas)));
        more == p.more && isConn == p.isConn && Content(datas) == p.rest && cut == old(cut) + p.frames
    {
      hide Parse, CheckHead, CheckConnHead, Accounts, WorkerAfter, Laid, Patched;
      if !isConn {
        var size := CheckConnHead(Content(datas));
        if size.None? {
          return false;
        }
        Deliver(size.value);
      }
      var size := CheckHead(Content(datas));
      if size.None? {
        return false;
      }
      Deliver(size.value);
      more := true;
    }

    /** At most `passes` passes of the inner loop. `more` says that it would go on. */
    method CutFrames(passes: nat) returns (more: bool)
      requires Valid()
      modifies `datas, `isConn, `frames, `cut, `spun
      ensures Valid()
      ensures datas.arr == old(datas.arr) && |old(frames)| <= |frames| && frames[..|old(frames)|] == old(frames)
      ensures var p := Passes(old(isConn), old(Content(datas)), passes);
        more == p.more && isConn == p.isConn && Content(datas) == p.rest && cut == old(cut) + p.frames
      ensures !more ==> Next(isConn, Content(datas)) == None
    {
      hide Parse, Next, CheckHead, CheckConnHead, Accounts, WorkerAfter, Laid, Patched, PassOf, Passes, Going;
      ghost var whole := Passes(isConn, Content(datas), passes);
      ghost var done: seq<seq<Byte>> := [];
      GoingStarts(isConn, Content(datas), passes);
      more := true;
      var n := 0;
      while more && n < passes
        invariant Valid() && n <= passes
        invariant datas.arr == old(datas.arr) && |old(frames)| <= |frames| && frames[..|old(frames)|] == old(frames)
        invariant cut == old(cut) + done
        invariant Going(whole, done, isConn, Content(datas), more, passes - n)
        invariant !more ==> Next(isConn, Content(datas)) == None
      {
        GoingStep(whole, done, isConn, Content(datas), passes - n);
        PassStops(isConn, Content(datas));
        done := done + PassOf(isConn, Content(datas)).frames;
        more := CutPass();
        n := n + 1;
      }
      GoingEnds(whole, done, isConn, Content(datas), more, passes - n);
    }

    /** One turn of the outer loop: a successful read, then at most `passes` passes over what is held.
        When the inner loop ends, the frames are those of one batch parse of everything received; it
        ends unless the parse spins or there are too few passes. */
    method Read(data: seq<Byte>, passes: nat) returns (more: bool)
      requires Valid() && Next(isConn, Content(datas)) == None && 0 < |data|
      modifies `datas, `isConn, `frames, `cut, `spun, `received, datas.arr
      ensures Valid() && received == old(received) + data
      ensures var p := Parse(isOwner, received);
        !more ==> cut == p.frames && isConn == p.isConn && Content(datas) == p.rest && !p.spins
      ensures !more ==> Next(isConn, Content(datas)) == None
      ensures more ==> Parse(isOwner, received).spins || passes <= |old(Content(datas))| + |data|
      ensures |old(frames)| <= |frames| && frames[..|old(frames)|] == old(frames)
      ensures forall k :: 0 <= k < |old(frames)| ==> Content(frames[k]) == old(Content(frames[k]))
    {
      hide Parse, Next, WorkerAfter, Laid, Patched, Passes;
      Receive(data);
      ghost var held, was := Content(datas), isConn;
      more := CutFrames(passes);
      if more {
        LoopEnds(was, held, passes);
      } else {
        StoppedIsParsed(was, held, passes);
      }
    }

    /** `SkpSetAddrSocket`, in place. */
    method SetAddrSocket(k: nat)
      requires Shape() && k < |frames| && frames[k].Ok() && frames[k].len >= HEAD_SIZE
      modifies frames[k].arr
      ensures Content(frames[k]) == Patched(old(Content(frames[k])), serverID, addrSocket)
      ensures Content(datas) == old(Content(datas))
      ensures forall j :: 0 <= j < |frames| && j != k ==>
        frames[j].Ok() && Content(frames[j]) == old(Content(frames[j]))
    {
      PatchBytes(frames[k], serverID, addrSocket);
      PatchIsLocal(k);
    }

    /** The worker receives the next frame: it loads the connection header, or checks the frame,
        writes its own id and address into it when the peer is a client, and passes it on. */
    method Take() returns (frame: Slice, accepted: bool)
      requires Valid() && taken < |frames|
      modifies `taken, `worker, frames[taken].arr
      ensures Valid()
      ensures taken == old(taken) + 1 && frame == frames[old(taken)]
      ensures Content(datas) == old(Content(datas))
      ensures forall k :: 0 <= k < |frames| && k != old(taken) ==> Content(frames[k]) == old(Content(frames[k]))
      ensures old(Content(frame)) == cut[old(taken)]
      ensures accepted == old(worker).Accepts(cut[old(taken)])
      ensures worker == old(worker).Load(cut[old(taken)])
    {
      hide Parse, Accounts, Laid;
      frame := frames[taken];
      LaidOk(frames, datas);
      assert Shows(taken);
      var bytes := Content(frame);
      if !worker.isConn {
        accepted := false;
        worker := worker.Load(bytes);
      } else {
        accepted := CheckHead(bytes).Some?;
        if accepted && worker.connType == CONN_TYPE_CLIENT {
          SetAddrSocket(taken);
        }
      }
      taken := taken + 1;
      OneMoreTaken();
    }
  }
}
