/** Session and Stream as objects, with the sections of their methods that run under a lock, and the loops that cut
    and drain. What they do to the buffers is said as steps of Buffers over one memory, which the whole session keeps
    sound; the window, the tokens and the shaper's requests are said in terms of StreamLink, Receive and Shaper. */
module Sessions {
  import opened Arith
  import opened Wire
  import opened Wrappers
  import opened Alloc
  import opened Buffers
  import Shaper
  import StreamLink
  import Receive

  /** The memory that slices point into; heap[k] are the bytes of storage k. */
  class Memory {
    var heap: seq<seq<byte>>

    constructor ()
      ensures heap == []
    {
      heap := [];
    }

    /** New storage from the allocator is zeroed memory. */
    method Grow(size: nat)
      modifies this
      ensures heap == old(heap) + [seq(size, _ => 0)]
    {
      heap := heap + [seq(size, _ => 0)];
    }

    method Store(x: Slice, bytes: seq<byte>)
      requires x.Ok() && x.store < |heap| && x.end == |heap[x.store]| && |bytes| == x.len
      modifies this
      ensures heap == old(heap)[x.store := Overwrite(old(heap)[x.store], x.off, bytes)]
    {
      heap := heap[x.store := Overwrite(heap[x.store], x.off, bytes)];
    }
  }

  datatype ReadStatus = Done | WouldBlock | EndOfFile

  class Stream {
    const id: uint32
    var buffers: seq<Slice>
    var heads: seq<Slice>
    var chReadEvent: bool
    var chUpdate: bool
    var finEvent: bool
    var die: bool
    var numRead: uint32
    var numWritten: uint32
    var incr: uint32
    var peerConsumed: uint32
    var peerWindow: uint32

    constructor (id: uint32)
      ensures this.id == id && View() == EMPTY && peerWindow == StreamLink.INITIAL_PEER_WINDOW
      ensures numRead == numWritten == incr == peerConsumed == 0
      ensures !chReadEvent && !chUpdate && !finEvent && !die
    {
      this.id := id;
      buffers, heads := [], [];
      chReadEvent, chUpdate, finEvent, die := false, false, false, false;
      numRead, numWritten, incr, peerConsumed := 0, 0, 0, 0;
      peerWindow := StreamLink.INITIAL_PEER_WINDOW;
    }

    ghost function View(): StreamBuf
      reads `buffers, `heads
    {
      StreamBuf(buffers, heads, [])
    }

    method PushBytes(buf: Slice)
      modifies this`buffers, this`heads
      ensures View() == Push(old(View()), buf)
    {
      buffers := buffers + [buf];
      heads := heads + [buf];
    }

    /** What both versions of tryRead do under bufferLock: copy from the first buffer only, and give its head back
        to the allocator when it is used up. */
    method CopyOut(b: array<byte>, mem: Memory, alloc: Allocator) returns (n: nat)
      requires BufOk(View()) && Readable(mem.heap, buffers) && PoolsOk(alloc.View()) && b.Length > 0
      modifies this`buffers, this`heads, b, alloc
      ensures n == ReadCount(old(View()), b.Length) && (n == 0 <==> old(buffers) == [])
      ensures old(buffers) != [] ==> n == Min(b.Length, old(buffers)[0].len)
      ensures View() == AfterRead(old(View()), n)
      ensures alloc.View() == PutAll(old(alloc.View()), Finished(old(View()), n))
      ensures n > 0 ==> b[..n] == Bytes(mem.heap, old(buffers)[0].Take(n))
      ensures b[n..] == old(b[n..])
    {
      n := 0;
      if |buffers| > 0 {
        assert TailOf(buffers[0], heads[0]);
        var x := buffers[0];
        n := Min(b.Length, x.len);
        var bytes := mem.heap[x.store][x.off..x.off + n];
        forall i | 0 <= i < n {
          b[i] := bytes[i];
        }
        assert b[..n] == bytes;
        buffers := buffers[0 := x.Drop(n)];
        if buffers[0].len == 0 {
          buffers := buffers[1..];
          var ok := alloc.Put(heads[0]);
          heads := heads[1..];
        }
      }
    }

    /** The section of tryRead under bufferLock, in the session: the reader gets the front of its stream's queue, and
        no byte of any other stream changes. */
    method ReadFront(b: array<byte>, sess: Session, ghost i: nat) returns (n: nat)
      requires sess.Valid() && i < |sess.made| && sess.made[i] == this && b.Length > 0
      modifies this`buffers, this`heads, b, sess.alloc
      ensures sess.Valid() && sess.World() == Apply(old(sess.World()), Read(i, b.Length))
      ensures n <= b.Length && (n == 0 <==> old(buffers) == [])
      ensures old(buffers) != [] ==> n == Min(b.Length, old(buffers)[0].len)
      ensures old(Queue(sess.World(), i)) == b[..n] + Queue(sess.World(), i)
      ensures sess.OthersKept(old(sess.World()), i)
      ensures b[n..] == old(b[n..])
    {
      ghost var w := sess.World();
      sess.StreamReady(i);
      n := CopyOut(b, sess.mem, sess.alloc);
      sess.OneViewChanged(w, i);
      assert sess.World() == Apply(w, Read(i, b.Length));
      sess.StepTaken(w, Read(i, b.Length), i);
      ReadQueues(w, i, b.Length);
    }

    /** tryRead, version 1: the bytes that were read become tokens again. */
    method TryRead(b: array<byte>, sess: Session, ghost i: nat) returns (n: nat, status: ReadStatus)
      requires sess.Valid() && i < |sess.made| && sess.made[i] == this
      modifies this`buffers, this`heads, b, sess.alloc, sess`bucket, sess`bucketNotify
      ensures sess.Valid()
      ensures sess.World() == if b.Length == 0 then old(sess.World()) else Apply(old(sess.World()), Read(i, b.Length))
      ensures n <= b.Length && old(Queue(sess.World(), i)) == b[..n] + Queue(sess.World(), i)
      ensures sess.OthersKept(old(sess.World()), i)
      ensures b[n..] == old(b[n..])
      ensures sess.bucket == I32(old(sess.bucket) + n)
      ensures sess.bucketNotify == (old(sess.bucketNotify) || (n > 0 && sess.bucket > 0))
      ensures n == 0 <==> b.Length == 0 || old(buffers) == []
      ensures old(buffers) != [] ==> n == Min(b.Length, old(buffers)[0].len)
      ensures status == if b.Length == 0 || n > 0 then Done else if die then EndOfFile else WouldBlock
    {
      hide Inv, Queue, Apply, ViewsOf, I32, BufOk, PoolsOk;
      hide Session.Linked, Session.Counted;
      sess.BucketSame();
      if b.Length == 0 {
        assert b[..0] + Queue(sess.World(), i) == Queue(sess.World(), i);
        return 0, Done;
      }
      n := ReadFront(b, sess, i);
      if n > 0 {
        sess.ReturnTokens(n);
        return n, Done;
      }
      status := if die then EndOfFile else WouldBlock;
    }

    /** tryReadv2: besides, the counters, and the window update that goes to the shaper when it is due. Reading into
        an empty buffer does nothing at all. */
    method TryReadV2(b: array<byte>, sess: Session, ghost i: nat) returns (n: nat, status: ReadStatus)
      requires sess.Valid() && i < |sess.made| && sess.made[i] == this
      modifies this`buffers, this`heads, this`numRead, this`incr, b, sess.alloc
      modifies sess`bucket, sess`bucketNotify, sess`requestID, sess`shaper
      ensures sess.Valid()
      ensures sess.World() == if b.Length == 0 then old(sess.World()) else Apply(old(sess.World()), Read(i, b.Length))
      ensures n <= b.Length && old(Queue(sess.World(), i)) == b[..n] + Queue(sess.World(), i)
      ensures sess.OthersKept(old(sess.World()), i)
      ensures b[n..] == old(b[n..])
      ensures sess.bucket == I32(old(sess.bucket) + n)
      ensures sess.bucketNotify == (old(sess.bucketNotify) || (n > 0 && sess.bucket > 0))
      ensures n == 0 <==> b.Length == 0 || old(buffers) == []
      ensures old(buffers) != [] ==> n == Min(b.Length, old(buffers)[0].len)
      ensures var k := Counters(old(numRead), old(incr), []);
        var r := if b.Length == 0 then k else CountRead(sess.streamBuf, k, n);
        && numRead == r.numRead && incr == r.incr && sess.requestID == Add32(old(sess.requestID), |r.reports|)
        && sess.shaper == old(sess.shaper) + Updates(sess.version, id, sess.streamBuf, old(sess.requestID), r.reports)
      ensures status == if b.Length == 0 || n > 0 then Done else if die then EndOfFile else WouldBlock
    {
      hide Inv, Queue, Apply, I32, Add32, Updates, CountRead;
      hide Session.Linked, Session.Counted, Session.World, Session.Views;
      NoUpdates(sess.shaper, sess.version, id, sess.streamBuf, sess.requestID);
      sess.BucketSame();
      if b.Length == 0 {
        assert b[..0] + Queue(sess.World(), i) == Queue(sess.World(), i);
        return 0, Done;
      }
      n := ReadFront(b, sess, i);
      ghost var w := sess.World();
      sess.WorldIs();
      CountAndReport(n, sess);
      sess.SameWorld(w);
      if n > 0 {
        sess.ReturnTokens(n);
        return n, Done;
      }
      status := if die then EndOfFile else WouldBlock;
    }

    /** The counters of version 2 under bufferLock; what is returned is the count to report, or 0. */
    method CountBytes(n: nat, streamBuf: uint32) returns (notifyConsumed: uint32)
      modifies this`numRead, this`incr
      ensures numRead == Add32(old(numRead), n)
      ensures var due := StreamLink.UpdateDue(streamBuf, old(numRead), old(incr), n);
        && incr == (if due then 0 else Add32(old(incr), n))
        && notifyConsumed == (if due then numRead else 0)
    {
      notifyConsumed := 0;
      numRead := Add32(numRead, n);
      incr := Add32(incr, n);
      if incr >= streamBuf / 2 || numRead == U32(n) {
        notifyConsumed := numRead;
        incr := 0;
      }
    }

    /** sendWindowUpdate: one frame to the shaper, which carries the count and the size of the receive buffer. */
    method SendWindowUpdate(consumed: uint32, sess: Session)
      modifies sess`requestID, sess`shaper
      ensures sess.requestID == Add32(old(sess.requestID), 1)
      ensures sess.shaper
        == old(sess.shaper) + Updates(sess.version, id, sess.streamBuf, old(sess.requestID), [consumed])
    {
      assert [consumed][1..] == [];
      sess.WriteFrame(UpdateFrame(sess.version, id, consumed, sess.streamBuf), Shaper.CLSDATA);
    }

    /** What version 2 does when n bytes have been read: count, and report if that is due and something was read. */
    method CountAndReport(n: nat, sess: Session)
      modifies this`numRead, this`incr, sess`requestID, sess`shaper
      ensures var r := CountRead(sess.streamBuf, Counters(old(numRead), old(incr), []), n);
        && numRead == r.numRead && incr == r.incr && sess.requestID == Add32(old(sess.requestID), |r.reports|)
        && sess.shaper == old(sess.shaper) + Updates(sess.version, id, sess.streamBuf, old(sess.requestID), r.reports)
    {
      hide Add32, Updates, StreamLink.UpdateDue;
      NoUpdates(sess.shaper, sess.version, id, sess.streamBuf, sess.requestID);
      var notifyConsumed := CountBytes(n, sess.streamBuf);
      if n > 0 && notifyConsumed > 0 {
        SendWindowUpdate(notifyConsumed, sess);
        assert [] + [notifyConsumed] == [notifyConsumed];
      }
    }

    /** One turn of WriteTo: the first buffer is taken out whole, written, turned into tokens and offered back. */
    method WriteFront(sess: Session, ghost i: nat) returns (bytes: seq<byte>)
      requires sess.Valid() && i < |sess.made| && sess.made[i] == this && buffers != []
      modifies this`buffers, this`heads, sess.alloc, sess`bucket, sess`bucketNotify
      ensures sess.Valid() && sess.World() == WriteOut(old(sess.World()), i)
      ensures buffers == old(buffers)[1..] && |bytes| == old(buffers[0]).len > 0
      ensures old(Queue(sess.World(), i)) == bytes + Queue(sess.World(), i)
      ensures sess.OthersKept(old(sess.World()), i)
      ensures sess.bucket == I32(old(sess.bucket) + |bytes|)
      ensures sess.bucketNotify == (old(sess.bucketNotify) || sess.bucket > 0)
    {
      hide Inv, Queue, PutTo, WriteOut, Apply, I32, BufOk, PoolsOk;
      hide Session.Counted, Session.World, Session.Views;
      ghost var w := sess.World();
      sess.WorldIs();
      sess.StreamReady(i);
      var buf := buffers[0];
      buffers, heads := buffers[1..], heads[1..];
      bytes := sess.mem.heap[buf.store][buf.off..buf.off + buf.len];
      sess.ReturnTokens(buf.len);
      var ok := sess.alloc.Put(buf);
      sess.IsWrittenOut(w, i);
    }

    /** WriteTo, version 1, until it would have to wait: every byte of the stream's queue is written, in order, and
        becomes a token; no byte of any other stream changes. */
    method WriteTo(sess: Session, ghost i: nat) returns (out: seq<byte>)
      requires sess.Valid() && i < |sess.made| && sess.made[i] == this
      modifies this`buffers, this`heads, sess.alloc, sess`bucket, sess`bucketNotify
      ensures sess.Valid()
      ensures out == old(Queue(sess.World(), i)) && buffers == []
      ensures sess.OthersKept(old(sess.World()), i)
      ensures sess.bucket == I32(old(sess.bucket) + |out|)
      ensures (out != [] && sess.bucket > 0) || old(sess.bucketNotify) ==> sess.bucketNotify
      ensures out == [] ==> sess.bucketNotify == old(sess.bucketNotify)
    {
      hide Inv, Queue, WriteOut, I32;
      hide Session.Linked, Session.Counted, Session.World, Session.Views;
      out := [];
      ghost var w := sess.World();
      sess.BucketSame();
      while |buffers| > 0
        invariant sess.Valid() && sess.made == old(sess.made) && Inv(w) && |w.streams| == |sess.made|
        invariant Queue(w, i) == out + Queue(sess.World(), i) && sess.OthersKept(w, i)
        invariant sess.bucket == I32(old(sess.bucket) + |out|)
        invariant (out != [] && sess.bucket > 0) || old(sess.bucketNotify) ==> sess.bucketNotify
        invariant out == [] ==> sess.bucketNotify == old(sess.bucketNotify)
        decreases |buffers|
      {
        ghost var before := out;
        var bytes := WriteFront(sess, i);
        out := out + bytes;
        I32Sum(old(sess.bucket) + |before|, |bytes|);
        assert before + (bytes + Queue(sess.World(), i)) == out + Queue(sess.World(), i);
      }
      sess.NothingWaits(i);
      assert out + [] == out;
    }

    /** The same turn in version 2: the buffer is counted, and a report that falls due is handed to the shaper. */
    method WriteFrontV2(sess: Session, ghost i: nat) returns (bytes: seq<byte>)
      requires sess.Valid() && i < |sess.made| && sess.made[i] == this && buffers != []
      modifies this`buffers, this`heads, this`numRead, this`incr, sess.alloc
      modifies sess`bucket, sess`bucketNotify, sess`requestID, sess`shaper
      ensures sess.Valid() && sess.World() == WriteOut(old(sess.World()), i)
      ensures buffers == old(buffers)[1..] && |bytes| == old(buffers[0]).len > 0
      ensures old(Queue(sess.World(), i)) == bytes + Queue(sess.World(), i)
      ensures sess.OthersKept(old(sess.World()), i)
      ensures sess.bucket == I32(old(sess.bucket) + |bytes|)
      ensures sess.bucketNotify == (old(sess.bucketNotify) || sess.bucket > 0)
      ensures var r := CountRead(sess.streamBuf, Counters(old(numRead), old(incr), []), |bytes|);
        && numRead == r.numRead && incr == r.incr && sess.requestID == Add32(old(sess.requestID), |r.reports|)
        && sess.shaper == old(sess.shaper) + Updates(sess.version, id, sess.streamBuf, old(sess.requestID), r.reports)
    {
      hide Inv, Queue, WriteOut, I32, Add32, Updates, CountRead;
      hide Session.Linked, Session.Counted, Session.World, Session.Views;
      bytes := WriteFront(sess, i);
      ghost var w := sess.World();
      sess.WorldIs();
      CountAndReport(|bytes|, sess);
      sess.SameWorld(w);
    }

    /** WriteTo, version 2: besides, every buffer is counted, and every report that falls due is handed to the shaper;
        the turn that finds nothing is counted too. */
    method WriteToV2(sess: Session, ghost i: nat) returns (out: seq<byte>)
      requires sess.Valid() && i < |sess.made| && sess.made[i] == this
      modifies this`buffers, this`heads, this`numRead, this`incr, sess.alloc
      modifies sess`bucket, sess`bucketNotify, sess`requestID, sess`shaper
      ensures sess.Valid()
      ensures out == old(Queue(sess.World(), i)) && buffers == []
      ensures sess.OthersKept(old(sess.World()), i)
      ensures sess.bucket == I32(old(sess.bucket) + |out|)
      ensures var k := CountAll(sess.streamBuf, Counters(old(numRead), old(incr), []), Lens(old(buffers)));
        var r := CountRead(sess.streamBuf, k, 0);
        && numRead == r.numRead && incr == r.incr && sess.requestID == Add32(old(sess.requestID), |r.reports|)
        && sess.shaper == old(sess.shaper) + Updates(sess.version, id, sess.streamBuf, old(sess.requestID), r.reports)
      ensures (out != [] && sess.bucket > 0) || old(sess.bucketNotify) ==> sess.bucketNotify
      ensures out == [] ==> sess.bucketNotify == old(sess.bucketNotify)
    {
      hide Inv, Queue, WriteOut, I32, Add32, Updates, CountAll, CountRead, Lens;
      hide Session.Linked, Session.Counted, Session.World, Session.Views;
      out := [];
      NoUpdates(sess.shaper, sess.version, id, sess.streamBuf, sess.requestID);
      sess.BucketSame();
      ghost var w := sess.World();
      ghost var start := Counters(numRead, incr, []);
      ghost var k := start;
      while |buffers| > 0
        invariant sess.Valid() && sess.made == old(sess.made) && Inv(w) && |w.streams| == |sess.made|
        invariant Queue(w, i) == out + Queue(sess.World(), i) && sess.OthersKept(w, i)
        invariant sess.bucket == I32(old(sess.bucket) + |out|)
        invariant (out != [] && sess.bucket > 0) || old(sess.bucketNotify) ==> sess.bucketNotify
        invariant out == [] ==> sess.bucketNotify == old(sess.bucketNotify)
        invariant numRead == k.numRead && incr == k.incr && sess.requestID == Add32(old(sess.requestID), |k.reports|)
        invariant CountAll(sess.streamBuf, k, Lens(buffers)) == CountAll(sess.streamBuf, start, Lens(old(buffers)))
        invariant sess.shaper
          == old(sess.shaper) + Updates(sess.version, id, sess.streamBuf, old(sess.requestID), k.reports)
        decreases |buffers|
      {
        ghost var before, lens, m := out, Lens(buffers), k;
        LensRest(buffers);
        var bytes := WriteFrontV2(sess, i);
        out := out + bytes;
        I32Sum(old(sess.bucket) + |before|, |bytes|);
        assert before + (bytes + Queue(sess.World(), i)) == out + Queue(sess.World(), i);
        k := CountRead(sess.streamBuf, m, |bytes|);
        CountAllOnce(sess.streamBuf, m, lens, Lens(buffers), |bytes|);
        MoreUpdates(sess.version, id, sess.streamBuf, old(sess.requestID), m, |bytes|, old(sess.shaper));
      }
      sess.NothingWaits(i);
      assert out + [] == out;
      CountNone(sess.streamBuf, k);
      MoreUpdates(sess.version, id, sess.streamBuf, old(sess.requestID), k, 0, old(sess.shaper));
      ghost var v := sess.World();
      sess.WorldIs();
      CountAndReport(0, sess);
      sess.SameWorld(v);
    }

    /** recycleTokens: the bytes that are still there become tokens and every head goes back. */
    method RecycleTokens(alloc: Allocator) returns (n: nat)
      requires BufOk(View()) && PoolsOk(alloc.View())
      modifies this`buffers, this`heads, alloc
      ensures n == Receive.Sum(Lens(old(buffers)))
      ensures View() == EMPTY
      ensures alloc.View() == PutAll(old(alloc.View()), old(heads))
    {
      n := 0;
      var k := 0;
      while k < |buffers|
        invariant 0 <= k <= |buffers| && BufOk(View()) && buffers == old(buffers) && heads == old(heads)
        invariant PoolsOk(alloc.View())
        invariant n + Receive.Sum(Lens(buffers[k..])) == Receive.Sum(Lens(buffers))
        invariant PutAll(alloc.View(), heads[k..]) == PutAll(old(alloc.View()), heads)
      {
        assert buffers[k..][1..] == buffers[k + 1..] && heads[k..][1..] == heads[k + 1..];
        assert Lens(buffers[k..])[1..] == Lens(buffers[k + 1..]);
        assert TailOf(buffers[k], heads[k]);
        n := n + buffers[k].len;
        var ok := alloc.Put(heads[k]);
        k := k + 1;
      }
      buffers, heads := [], [];
    }

    /** An update stores its two numbers and leaves a signal. */
    method Update(consumed: uint32, window: uint32)
      modifies this`peerConsumed, this`peerWindow, this`chUpdate
      ensures peerConsumed == consumed && peerWindow == window && chUpdate
    {
      peerConsumed := consumed;
      peerWindow := window;
      chUpdate := true;
    }

    /** One round of the loop of writeV2: refused is ErrConsumed, rest what must wait for the next update. */
    method WriteRound(sess: Session, b: seq<byte>) returns (refused: bool, rest: seq<byte>)
      requires sess.Valid()
      modifies this`numWritten, sess`requestID, sess`shaper
      ensures sess.Valid() && sess.World() == old(sess.World())
      ensures refused <==> StreamLink.Inflight(old(numWritten), peerConsumed) < 0
      ensures refused ==>
        numWritten == old(numWritten) && sess.shaper == old(sess.shaper) && sess.requestID == old(sess.requestID)
      ensures !refused ==>
        var w := StreamLink.AfterOpenWindow(b, StreamLink.Inflight(old(numWritten), peerConsumed), peerWindow);
        && rest == w.more
        && sess.shaper
          == old(sess.shaper) + Requests(sess.version, id, old(sess.requestID), Payloads(w.bts, sess.frameSize))
        && sess.requestID == Add32(old(sess.requestID), |Payloads(w.bts, sess.frameSize)|)
        && numWritten == Add32(old(numWritten), |w.bts|)
    {
      hide I32, Add32, U32, StreamLink.Inflight, Requests, Payloads, Inv;
      hide Session.Linked, Session.World, Session.Views;
      ghost var w := sess.World();
      sess.WorldIs();
      I32IsNotAbove(|b|);
      var inflight := StreamLink.Inflight(numWritten, peerConsumed);
      if inflight < 0 {
        return true, b;
      }
      refused := false;
      var win := I32(I32(peerWindow) - inflight);
      var bts: seq<byte> := [];
      rest := b;
      if win > 0 {
        if win > I32(|b|) {
          bts, rest := b, [];
        } else {
          bts, rest := b[..win], b[win..];
        }
      }
      var counted := sess.WriteFrames(id, bts);
      numWritten := Add32(numWritten, counted);
      sess.SameWorld(w);
    }
  }

  /** The counters of version 2, and the counts that were reported. */
  datatype Counters = Counters(numRead: uint32, incr: uint32, reports: seq<uint32>)

  function CountRead(streamBuf: uint32, k: Counters, n: nat): Counters {
    var due := StreamLink.UpdateDue(streamBuf, k.numRead, k.incr, n);
    var numRead := Add32(k.numRead, n);
    Counters(numRead, if due then 0 else Add32(k.incr, n),
             if due && n > 0 && numRead > 0 then k.reports + [numRead] else k.reports)
  }

  /** The counters are those of the one-stream machine, and what it reports is reported, in that order. */
  lemma CountReadIsLink(c: StreamLink.Config, l: StreamLink.Link, max: nat, reports: seq<uint32>)
    requires c.version == 2 && l.reader.Ready?
    ensures var r := CountRead(c.streamBuf, Counters(l.numRead, l.incr, reports), StreamLink.ReadCount(l, max));
      var m := StreamLink.AfterTryRead(c, l, max);
      && r.numRead == m.numRead && r.incr == m.incr
      && r.reports == if m.reader.Acking? then reports + [m.reader.consumed] else reports
  {
    hide StreamLink.UpdateDue, U32, StreamLink.ReadCount;
    var n := StreamLink.ReadCount(l, max);
    assert Add32(l.numRead, n) == U32(l.numRead + n) && Add32(l.incr, n) == U32(l.incr + n);
  }

  function CountAll(streamBuf: uint32, k: Counters, lens: seq<nat>): Counters
    decreases |lens|
  {
    if lens == [] then k else CountAll(streamBuf, CountRead(streamBuf, k, lens[0]), lens[1..])
  }

  function UpdateFrame(ver: byte, sid: uint32, consumed: uint32, window: uint32): Frame {
    Frame(ver, CMD_UPD, sid, UpdateData(consumed, window))
  }

  /** The requests that carry the given counts, numbered on from last. */
  function Updates(ver: byte, sid: uint32, window: uint32, last: uint32, reports: seq<uint32>): seq<Shaper.Request>
    decreases |reports|
  {
    if reports == [] then []
    else
      [Shaper.Request(Shaper.CLSDATA, Add32(last, 1), UpdateFrame(ver, sid, reports[0], window))]
      + Updates(ver, sid, window, Add32(last, 1), reports[1..])
  }

  /** Each report is one data request with the next number; its frame carries the count, and after that the size of the
      receive buffer. */
  lemma {:induction false} UpdateAt(ver: byte, sid: uint32, window: uint32, last: uint32, reports: seq<uint32>, i: nat)
    requires i < |reports|
    ensures |Updates(ver, sid, window, last, reports)| == |reports|
    ensures var r := Updates(ver, sid, window, last, reports)[i];
      && r.cls == Shaper.CLSDATA && r.seqno == Add32(last, i + 1)
      && r.frame.ver == ver && r.frame.cmd == CMD_UPD && r.frame.sid == sid && |r.frame.data| == 8
      && GetU32(r.frame.data[..4]) == reports[i] && GetU32(r.frame.data[4..]) == window
    decreases |reports|
  {
    if |reports| > 1 {
      UpdateAt(ver, sid, window, Add32(last, 1), reports[1..], if i == 0 then 0 else i - 1);
    }
    UpdateDataBack(reports[i], window);
    AddMore(last, 1, i);
    hide UpdateData, GetU32, Add32;
  }

  lemma MoreReports(streamBuf: uint32, k: Counters, n: nat)
    ensures CountRead(streamBuf, k, n).reports == k.reports + CountRead(streamBuf, k.(reports := []), n).reports
  {
    hide StreamLink.UpdateDue, Add32;
    assert k.reports + [] == k.reports;
    assert [] + [Add32(k.numRead, n)] == [Add32(k.numRead, n)];
  }

  lemma CountNone(streamBuf: uint32, k: Counters)
    ensures CountAll(streamBuf, k, Lens([])) == k
  {}

  lemma CountAllOnce(streamBuf: uint32, k: Counters, lens: seq<nat>, rest: seq<nat>, n: nat)
    requires lens == [n] + rest
    ensures CountAll(streamBuf, k, lens) == CountAll(streamBuf, CountRead(streamBuf, k, n), rest)
  {
    hide CountRead;
    assert lens[1..] == rest;
  }

  lemma LensRest(q: seq<Slice>)
    requires q != []
    ensures Lens(q) == [q[0].len] + Lens(q[1..])
  {}

  /** One more read goes on with the requests and the numbering. */
  lemma MoreUpdates(ver: byte, sid: uint32, window: uint32, last: uint32, k: Counters, n: nat,
                    before: seq<Shaper.Request>)
    ensures var r := CountRead(window, Counters(k.numRead, k.incr, []), n);
      var m := CountRead(window, k, n);
      && m.numRead == r.numRead && m.incr == r.incr
      && Add32(Add32(last, |k.reports|), |r.reports|) == Add32(last, |m.reports|)
      && (before + Updates(ver, sid, window, last, k.reports))
        + Updates(ver, sid, window, Add32(last, |k.reports|), r.reports)
        == before + Updates(ver, sid, window, last, m.reports)
  {
    var r := CountRead(window, Counters(k.numRead, k.incr, []), n);
    MoreReports(window, k, n);
    AddMore(last, |k.reports|, |r.reports|);
    UpdatesConcat(ver, sid, window, last, k.reports, r.reports);
    hide Updates, Add32;
  }

  lemma UpdatesCons(ver: byte, sid: uint32, window: uint32, last: uint32, x: uint32, rest: seq<uint32>)
    ensures Updates(ver, sid, window, last, [x] + rest)
      == [Shaper.Request(Shaper.CLSDATA, Add32(last, 1), UpdateFrame(ver, sid, x, window))]
       + Updates(ver, sid, window, Add32(last, 1), rest)
  {
    hide Add32, UpdateFrame;
    assert ([x] + rest)[1..] == rest;
  }

  lemma {:induction false} UpdatesConcat(ver: byte, sid: uint32, window: uint32, last: uint32, a: seq<uint32>,
                                         b: seq<uint32>)
    ensures Updates(ver, sid, window, last, a + b)
      == Updates(ver, sid, window, last, a) + Updates(ver, sid, window, Add32(last, |a|), b)
    decreases |a|
  {
    hide Add32, UpdateFrame;
    if a == [] {
      AddMore(last, 0, 0);
      assert a + b == b;
      assert [] + Updates(ver, sid, window, last, b) == Updates(ver, sid, window, last, b);
    } else {
      hide Updates;
      UpdatesConcat(ver, sid, window, Add32(last, 1), a[1..], b);
      AddMore(last, 1, |a| - 1);
      UpdatesCons(ver, sid, window, last, a[0], a[1..]);
      UpdatesCons(ver, sid, window, last, a[0], a[1..] + b);
      assert a == [a[0]] + a[1..] && a + b == [a[0]] + (a[1..] + b);
    }
  }

  lemma AddMore(x: uint32, m: nat, n: nat)
    ensures Add32(Add32(x, m), n) == Add32(x, m + n) && Add32(x, 0) == x
  {
    var y: int := x;
    WrappedSum(y + m, n);
  }

  lemma NoUpdates(q: seq<Shaper.Request>, ver: byte, sid: uint32, window: uint32, last: uint32)
    ensures q + Updates(ver, sid, window, last, []) == q && Add32(last, 0) == last
  {}

  lemma NextId(x: uint32)
    ensures Add32(x, 2) % 2 == x % 2
    ensures var last: int := x; Add32(x, 2) < 2 || Add32(x, 2) == last + 2
  {}

  lemma PoolsReady(w: World)
    requires Inv(w)
    ensures PoolsOk(w.pools)
  {}

  lemma RecycleIs(w: World, i: nat)
    requires Inv(w) && Enabled(w, Recycle(i))
    ensures PoolsOk(w.pools) && forall j :: 0 <= j < |w.streams[i].heads| ==> w.streams[i].heads[j].Ok()
    ensures Apply(w, Recycle(i)) == w.(streams := w.streams[i := w.streams[i].(buffers := [], heads := [])],
                                       pools := PutAll(w.pools, w.streams[i].heads))
  {
    hide PutAll;
  }

  lemma I32Twice(x: int)
    ensures I32(I32(x)) == I32(x)
  {}

  /** Wrapping early or late makes no difference to a sum. */
  lemma I32Sum(x: int, y: int)
    ensures I32(I32(x) + y) == I32(x + y)
  {
    var k := if x % TWO_32 < TWO_31 then x / TWO_32 else x / TWO_32 + 1;
    assert I32(x) + y == x + y - TWO_32 * k;
  }

  lemma I32IsNotAbove(n: nat)
    ensures I32(n) <= n
  {}

  function Lens(q: seq<Slice>): (r: seq<nat>)
    ensures |r| == |q| && forall i :: 0 <= i < |r| ==> r[i] == q[i].len
  {
    seq(|q|, i requires 0 <= i < |q| => q[i].len)
  }

  /** The payloads that Write cuts b into. */
  function Payloads(b: seq<byte>, frameSize: nat): seq<seq<byte>>
    requires frameSize > 0
  {
    if b == [] then []
    else
      var sz := Min(|b|, frameSize);
      [b[..sz]] + Payloads(b[sz..], frameSize)
  }

  /** Every payload but the last is as long as a frame may be. */
  lemma {:induction false} PayloadAt(b: seq<byte>, frameSize: nat, i: nat)
    requires frameSize > 0 && i < |Payloads(b, frameSize)|
    ensures frameSize * i < |b|
    ensures Payloads(b, frameSize)[i] == b[frameSize * i..Min(|b|, frameSize * i + frameSize)]
    ensures i + 1 == |Payloads(b, frameSize)| <==> |b| <= frameSize * i + frameSize
    decreases i
  {
    if i > 0 {
      var sz := Min(|b|, frameSize);
      PayloadAt(b[sz..], frameSize, i - 1);
      assert frameSize * i == frameSize * (i - 1) + frameSize;
    }
  }

  /** The one-stream machine cuts the same payloads, one after the other. */
  lemma CutTakesPayload(frameSize: nat, bts: seq<byte>, more: seq<byte>)
    requires frameSize > 0 && bts != []
    ensures var w, ps := StreamLink.AfterCut(frameSize, bts, more), Payloads(bts, frameSize);
      w.Queued? && ps == [w.data] + Payloads(w.bts, frameSize) && w.more == more
  {}

  /** Nothing is lost, nothing is empty, and nothing is too long for the 16-bit length of a frame. */
  lemma {:induction false} PayloadsAreWhole(b: seq<byte>, frameSize: nat)
    requires 0 < frameSize < 0x1_0000
    ensures StreamLink.Flat(Payloads(b, frameSize)) == b
    ensures forall p <- Payloads(b, frameSize) :: 0 < |p| <= frameSize
  {
    if b != [] {
      var sz := Min(|b|, frameSize);
      PayloadsAreWhole(b[sz..], frameSize);
      assert b[..sz] + b[sz..] == b;
    }
  }

  /** The requests that carry the payloads ps of stream sid, numbered on from last. */
  function Requests(ver: byte, sid: uint32, last: uint32, ps: seq<seq<byte>>): seq<Shaper.Request>
    decreases |ps|
  {
    if ps == [] then []
    else
      [Shaper.Request(Shaper.CLSDATA, Add32(last, 1), Frame(ver, CMD_PSH, sid, ps[0]))]
      + Requests(ver, sid, Add32(last, 1), ps[1..])
  }

  lemma {:induction false} RequestAt(ver: byte, sid: uint32, last: uint32, ps: seq<seq<byte>>, i: nat)
    requires i < |ps|
    ensures |Requests(ver, sid, last, ps)| == |ps|
    ensures Requests(ver, sid, last, ps)[i]
      == Shaper.Request(Shaper.CLSDATA, Add32(last, i + 1), Frame(ver, CMD_PSH, sid, ps[i]))
    decreases |ps|
  {
    if |ps| > 1 {
      RequestAt(ver, sid, Add32(last, 1), ps[1..], if i == 0 then 0 else i - 1);
    }
    var n: int := last;
    WrappedSum(n + 1, i);
  }

  /** The frames of one Write are in the shaper's order, wherever the numbering wraps: with Shaper.LeavesFirst they
      leave in the order in which they were cut, even when deadlines leave several of them pending. */
  lemma FramesOfOneWriteAreOrdered(ver: byte, sid: uint32, last: uint32, ps: seq<seq<byte>>, i: nat, j: nat)
    requires i < j < |ps| && j - i < TWO_31
    ensures |Requests(ver, sid, last, ps)| == |ps|
    ensures Shaper.Less(Requests(ver, sid, last, ps)[i], Requests(ver, sid, last, ps)[j])
  {
    hide Requests, U32, Shaper.Less;
    RequestAt(ver, sid, last, ps, i);
    RequestAt(ver, sid, last, ps, j);
    var n: int := last;
    Shaper.SerialOrder(Requests(ver, sid, last, ps)[i], Requests(ver, sid, last, ps)[j], n + i + 1, n + j + 1);
  }

  ghost function ViewsOf(streams: seq<Stream>): (v: seq<StreamBuf>)
    reads streams
    ensures |v| == |streams| && forall i :: 0 <= i < |v| ==> v[i] == streams[i].View()
  {
    seq(|streams|, i requires 0 <= i < |streams| reads streams => streams[i].View())
  }

  class Session {
    const version: byte
    const frameSize: nat
    const streamBuf: uint32
    const parity: nat
    const mem: Memory
    const alloc: Allocator
    var bucket: int
    var bucketNotify: bool
    var streams: map<uint32, Stream>
    var nextStreamID: uint32
    var goAway: bool
    var requestID: uint32
    var shaper: seq<Shaper.Request>  // everything handed to the shaper channel, in order
    ghost var made: seq<Stream>    // every stream of this session, in the order of opening
    ghost var ids: set<uint32>       // the ids that OpenStream has given out

    constructor (version: byte, frameSize: nat, streamBuf: uint32, maxReceiveBuffer: nat, client: bool)
      requires 0 < frameSize < 0x1_0000
      ensures Valid() && World() == START && streams == map[] && ids == {}
      ensures this.version == version && this.frameSize == frameSize && this.streamBuf == streamBuf
      ensures bucket == I32(maxReceiveBuffer) && parity == (if client then 1 else 0) && !goAway && shaper == []
      ensures nextStreamID == parity && requestID == 0 && !bucketNotify
      ensures fresh(mem) && fresh(alloc)
    {
      this.version, this.frameSize, this.streamBuf := version, frameSize, streamBuf;
      parity := if client then 1 else 0;
      mem := new Memory();
      alloc := new Allocator();
      bucket, bucketNotify, streams, shaper := I32(maxReceiveBuffer), false, map[], [];
      nextStreamID, goAway, requestID := (if client then 1 else 0), false, 0;
      made, ids := [], {};
      new;
      assert World() == START;
      StartIsSafe();
      I32Twice(maxReceiveBuffer);
    }

    ghost function Views(): (v: seq<StreamBuf>)
      reads `made, made
      ensures |v| == |made|
    {
      ViewsOf(made)
    }

    /** What Buffers says about: the pools, the streams and the memory; recvLoop holds no buffer between frames. */
    ghost function World(): (w: World)
      reads `made, mem, alloc, made
      ensures |w.streams| == |made| && w.inbox == []
    {
      Buffers.World(alloc.View(), Views(), [], mem.heap)
    }

    /** Every stream of the map is one of those made, under its own id. */
    ghost predicate Linked()
      reads `made, `streams
    {
      && (forall i, j :: 0 <= i < j < |made| ==> made[i] != made[j])
      && (forall sid <- streams :: streams[sid] in made && streams[sid].id == sid)
    }

    /** Ids have this side's parity and are not given out twice; the bucket is an int32. */
    ghost predicate Counted()
      reads `nextStreamID, `ids, `goAway, `bucket
    {
      && 0 < frameSize < 0x1_0000 && parity < 2 && nextStreamID % 2 == parity
      && (forall id <- ids :: id % 2 == parity && id >= 2 && (!goAway ==> id <= nextStreamID))
      && I32(bucket) == bucket
    }

    /** Besides: one memory, in which every storage is owned once. */
    ghost predicate Valid()
      reads this, mem, alloc, made
    {
      Linked() && Counted() && Inv(World())
    }

    /** No byte waiting in a stream other than i has changed. */
    ghost predicate OthersKept(w: World, i: nat)
      reads `made, mem, alloc, made
      requires Inv(w) && Inv(World())
    {
      forall k :: 0 <= k < |w.streams| && k < |made| && k != i ==> Queue(World(), k) == Queue(w, k)
    }

    /** Other fields do not matter to the world. */
    lemma SameWorld(w: World)
      requires |w.streams| == |made| && forall k :: 0 <= k < |made| ==> made[k].View() == w.streams[k]
      requires alloc.View() == w.pools && mem.heap == w.heap && w.inbox == []
      ensures World() == w
    {
      assert Views() == w.streams;
    }

    lemma StreamReady(i: nat)
      requires Valid() && i < |made|
      ensures BufOk(made[i].View()) && Readable(mem.heap, made[i].buffers) && PoolsOk(alloc.View())
      ensures |made[i].buffers| == |made[i].heads|
    {
      assert Views()[i] == made[i].View();
      WaitingReadable(World(), i);
      assert Waiting(made[i].View()) == made[i].buffers;
    }

    lemma OneViewChanged(w: World, i: nat)
      requires i < |made| && |w.streams| == |made|
      requires forall k :: 0 <= k < |made| && k != i ==> made[k].View() == w.streams[k]
      ensures Views() == w.streams[i := made[i].View()]
    {}

    /** After a step of stream i. */
    lemma StepTaken(w: World, a: Act, i: nat)
      requires Inv(w) && Enabled(w, a) && World() == Apply(w, a)
      requires (a.Open? || a.Recycle? || a.Read?) && (a.Open? || a.i == i)
      ensures Inv(World()) && OthersKept(w, i)
    {
      InvKept(w, a);
      hide Inv, Queue, Apply;
      forall k | 0 <= k < |w.streams| && k < |made| && k != i
        ensures Queue(World(), k) == Queue(w, k)
      {
        OneStreamStep(w, a, i, k);
      }
    }

    /** writeFrameInternal up to the shaper channel: the request gets the next number, modulo 2^32. */
    method WriteFrame(f: Frame, cls: Shaper.Class)
      modifies this`requestID, this`shaper
      ensures requestID == Add32(old(requestID), 1)
      ensures shaper == old(shaper) + [Shaper.Request(cls, requestID, f)]
    {
      requestID := Add32(requestID, 1);
      shaper := shaper + [Shaper.Request(cls, requestID, f)];
    }

    lemma NothingWaits(i: nat)
      requires Valid() && i < |made| && made[i].buffers == []
      ensures Queue(World(), i) == []
    {
      assert Views()[i] == made[i].View();
    }

    /** Cutting loop of Write: frames of at most frameSize bytes, one request each. */
    method WriteFrames(sid: uint32, b: seq<byte>) returns (sent: nat)
      requires 0 < frameSize
      modifies this`requestID, this`shaper
      ensures sent == |b|
      ensures shaper == old(shaper) + Requests(version, sid, old(requestID), Payloads(b, frameSize))
      ensures requestID == Add32(old(requestID), |Payloads(b, frameSize)|)
    {
      var bts := b;
      sent := 0;
      while |bts| > 0
        invariant sent + |bts| == |b|
        invariant old(shaper) + Requests(version, sid, old(requestID), Payloads(b, frameSize))
          == shaper + Requests(version, sid, requestID, Payloads(bts, frameSize))
        invariant Add32(requestID, |Payloads(bts, frameSize)|) == Add32(old(requestID), |Payloads(b, frameSize)|)
        decreases |bts|
      {
        var sz := Min(|bts|, frameSize);
        ghost var payloads, last := Payloads(bts, frameSize), requestID;
        assert payloads[1..] == Payloads(bts[sz..], frameSize);
        ghost var before := shaper;
        WriteFrame(Frame(version, CMD_PSH, sid, bts[..sz]), Shaper.CLSDATA);
        AddMore(last, 1, |payloads| - 1);
        bts := bts[sz..];
        ghost var rest := Requests(version, sid, requestID, Payloads(bts, frameSize));
        assert Requests(version, sid, last, payloads) == [shaper[|before|]] + rest;
        assert before + ([shaper[|before|]] + rest) == shaper + rest;
        sent := sent + sz;
      }
      assert shaper + [] == shaper;
      AddMore(requestID, 0, 0);
    }

    /** A new stream joins those of the session. */
    method NewStream(sid: uint32) returns (stream: Stream)
      requires Valid()
      modifies this`made, this`streams
      ensures fresh(stream) && stream.id == sid && streams == old(streams)[sid := stream]
      ensures made == old(made) + [stream]
      ensures Valid() && World() == Apply(old(World()), Open)
      ensures OthersKept(old(World()), |old(made)|) && stream.View() == EMPTY
    {
      ghost var w := World();
      stream := new Stream(sid);
      made := made + [stream];
      streams := streams[sid := stream];
      assert Views() == w.streams + [EMPTY];
      StepTaken(w, Open, |w.streams|);
    }

    /** OpenStream up to the shaper channel: the next id of this side's parity, which OpenStream has not given out
        before; None once the ids are used up. */
    method OpenStream() returns (r: Option<Stream>)
      requires Valid()
      modifies this`nextStreamID, this`goAway, this`streams, this`made, this`ids, this`requestID, this`shaper
      ensures Valid()
      ensures old(goAway) ==> r.None?
      ensures r.Some? <==> !old(goAway) && Add32(old(nextStreamID), 2) >= 2
      ensures r.Some? ==>
        && fresh(r.value) && r.value.id % 2 == parity && r.value.id !in old(ids) && ids == old(ids) + {r.value.id}
        && r.value.View() == EMPTY && streams == old(streams)[r.value.id := r.value]
        && made == old(made) + [r.value] && World() == Apply(old(World()), Open)
        && OthersKept(old(World()), |old(made)|)
        && shaper == old(shaper) + [Shaper.Request(Shaper.CLSCTRL, requestID, Frame(version, CMD_SYN, r.value.id, []))]
      ensures r.None? ==>
        goAway && streams == old(streams) && ids == old(ids) && shaper == old(shaper) && World() == old(World())
    {
      hide Inv, Queue, Apply, Add32, World, Views, OthersKept;
      if goAway {
        return None;
      }
      NextId(nextStreamID);
      nextStreamID := Add32(nextStreamID, 2);
      var sid := nextStreamID;
      if sid == sid % 2 {
        goAway := true;
        return None;
      }
      ids := ids + {sid};
      var stream := NewStream(sid);
      WriteFrame(Frame(version, CMD_SYN, sid, []), Shaper.CLSCTRL);
      r := Some(stream);
    }

    /** recvLoop on a SYN: an unknown id opens an empty stream, a known one changes nothing. */
    method HandleSyn(sid: uint32)
      requires Valid()
      modifies this`streams, this`made
      ensures Valid() && old(streams.Keys) + {sid} == streams.Keys
      ensures sid in old(streams) ==> streams == old(streams) && made == old(made) && World() == old(World())
      ensures sid !in old(streams) ==>
        && fresh(streams[sid]) && streams == old(streams)[sid := streams[sid]] && made == old(made) + [streams[sid]]
        && World() == Apply(old(World()), Open) && streams[sid].View() == EMPTY
        && OthersKept(old(World()), |old(made)|)
    {
      if sid !in streams {
        var stream := NewStream(sid);
      }
    }

    method NotifyBucket()
      modifies this`bucketNotify
      ensures bucketNotify
    {
      bucketNotify := true;
    }

    /** The atomic addition of the source, which wraps at 32 bits. */
    method AddToBucket(n: int)
      modifies `bucket
      ensures bucket == I32(old(bucket) + n)
      ensures old(Counted()) ==> Counted()
    {
      I32Twice(bucket + n);
      bucket := I32(bucket + n);
    }

    /** recvLoop on a FIN: a known stream is told that nothing more will come. */
    method HandleFin(sid: uint32)
      requires Valid()
      modifies (if sid in streams then {streams[sid]} else {})`finEvent
      modifies (if sid in streams then {streams[sid]} else {})`chReadEvent
      ensures Valid() && World() == old(World())
      ensures sid in streams ==> streams[sid].finEvent && streams[sid].chReadEvent
    {
      hide Inv, World, Views;
      ghost var w := World();
      WorldIs();
      if sid in streams {
        var stream := streams[sid];
        stream.finEvent := true;
        stream.chReadEvent := true;
      }
      SameWorld(w);
    }

    /** recvLoop on an update: a known stream stores it and leaves a signal; no buffer is touched. */
    method HandleUpdate(sid: uint32, consumed: uint32, window: uint32)
      requires Valid()
      modifies (if sid in streams then {streams[sid]} else {})`peerConsumed
      modifies (if sid in streams then {streams[sid]} else {})`peerWindow
      modifies (if sid in streams then {streams[sid]} else {})`chUpdate
      ensures Valid() && World() == old(World())
      ensures sid in streams ==>
        streams[sid].peerConsumed == consumed && streams[sid].peerWindow == window && streams[sid].chUpdate
    {
      hide Inv, World, Views;
      ghost var w := World();
      WorldIs();
      if sid in streams {
        var stream := streams[sid];
        stream.Update(consumed, window);
      }
      SameWorld(w);
    }

    /** Tokens go back; recvLoop is woken when that makes the bucket positive. */
    method ReturnTokens(n: nat)
      modifies `bucket, `bucketNotify
      ensures bucket == I32(old(bucket) + n)
      ensures bucketNotify == (old(bucketNotify) || bucket > 0)
      ensures old(Counted()) ==> Counted()
    {
      AddToBucket(n);
      if bucket > 0 {
        NotifyBucket();
      }
    }

    lemma BucketSame()
      requires Counted()
      ensures I32(bucket + 0) == bucket
    {}

    /** streamClosed: the stream's unread bytes become tokens, its buffers go back, and it leaves the map; no byte of
        any other stream changes. */
    method StreamClosed(sid: uint32, ghost i: nat)
      requires Valid() && sid in streams && i < |made| && made[i] == streams[sid]
      modifies this`bucket, this`bucketNotify, this`streams, {streams[sid]}`buffers, {streams[sid]}`heads, alloc
      ensures Valid() && streams == old(streams) - {sid}
      ensures World() == Apply(old(World()), Recycle(i))
      ensures OthersKept(old(World()), i) && Queue(World(), i) == []
      ensures bucket == I32(old(bucket) + Receive.Sum(Lens(old(streams[sid].buffers))))
      ensures bucketNotify
        == (old(bucketNotify) || (Receive.Sum(Lens(old(streams[sid].buffers))) > 0 && bucket > 0))
    {
      hide Inv, Queue, Apply, ViewsOf, I32, PutAll, Receive.Sum, Lens, BufOk, PoolsOk, World, Views, Counted;
      ghost var w := World();
      StreamReady(i);
      BucketSame();
      WorldIs();
      RecycleIs(w, i);
      var stream := streams[sid];
      var n := stream.RecycleTokens(alloc);
      IsRecycled(w, i);
      if n > 0 {
        ReturnTokens(n);
      }
      streams := streams - {sid};
    }

    lemma WorldIs()
      ensures World() == Buffers.World(alloc.View(), Views(), [], mem.heap)
      ensures forall k :: 0 <= k < |made| ==> Views()[k] == made[k].View()
    {}

    /** A stream whose first buffer has been written and offered back, in a session where nothing else has changed. */
    lemma IsWrittenOut(w: World, i: nat)
      requires Inv(w) && Enabled(w, TakeOut(i)) && w.inbox == [] && i < |made| == |w.streams| && PoolsOk(w.pools)
      requires w.streams[i].buffers[0].Ok() && |w.streams[i].heads| > 0 && Readable(w.heap, w.streams[i].buffers)
      requires made[i].View() == StreamBuf(w.streams[i].buffers[1..], w.streams[i].heads[1..], []) && mem.heap == w.heap
      requires forall k :: 0 <= k < |made| && k != i ==> made[k].View() == w.streams[k]
      requires alloc.View() == PutTo(w.pools, w.streams[i].buffers[0])
      ensures World() == WriteOut(w, i) && Inv(World()) && OthersKept(w, i)
      ensures w.streams[i].buffers[0].len > 0
      ensures Queue(w, i) == Bytes(w.heap, w.streams[i].buffers[0]) + Queue(World(), i)
    {
      assert w.streams[i].buffers[0].len > 0 by {
        assert TailOf(w.streams[i].buffers[0], w.streams[i].heads[0]);
      }
      hide Inv, Queue, Apply, PutTo, PoolsOk, WriteOut, BufOk, Bytes;
      OneViewChanged(w, i);
      WriteOutIs(w, i);
      forall k | 0 <= k < |made|
        ensures Queue(w, k) == (if k == i then Bytes(w.heap, w.streams[i].buffers[0]) else []) + Queue(World(), k)
      {
        WriteOutQueues(w, i, k);
      }
      assert forall k :: 0 <= k < |made| ==> [] + Queue(World(), k) == Queue(World(), k);
    }

    /** A stream whose buffers have gone back, in a session where nothing else has changed. */
    lemma IsRecycled(w: World, i: nat)
      requires Inv(w) && w.inbox == [] && i < |made| == |w.streams| && PoolsOk(w.pools)
      requires forall j :: 0 <= j < |w.streams[i].heads| ==> w.streams[i].heads[j].Ok()
      requires made[i].View() == EMPTY && w.streams[i].hand == [] && mem.heap == w.heap
      requires forall k :: 0 <= k < |made| && k != i ==> made[k].View() == w.streams[k]
      requires alloc.View() == PutAll(w.pools, w.streams[i].heads)
      ensures World() == Apply(w, Recycle(i)) && Inv(World()) && OthersKept(w, i) && Queue(World(), i) == []
    {
      hide Inv, Queue, Apply, PutAll, PoolsOk;
      OneViewChanged(w, i);
      RecycleIs(w, i);
      StepTaken(w, Recycle(i), i);
      RecycledIsEmpty(w, i);
    }

    /** x came from the allocator and was filled, and nothing else has changed in the memory. */
    ghost predicate Filled(w: World, data: seq<byte>, pick: Option<nat>, x: Slice)
      requires PoolsOk(w.pools) && 0 < |data| < MAX_SIZE
      reads alloc, mem
    {
      var p := GetFrom(w.pools, |data|, pick).1;
      var heap := if p.next == w.pools.next then w.heap else w.heap + [seq(x.end, _ => 0)];
      && x == GetFrom(w.pools, |data|, pick).0 && alloc.View() == p
      && x.store < |heap| && x.off + |data| <= |heap[x.store]|
      && mem.heap == heap[x.store := Overwrite(heap[x.store], x.off, data)]
    }

    /** A buffer from the allocator, filled with a payload that is read from the connection. */
    method FilledBuffer(data: seq<byte>, pick: Option<nat>) returns (newbuf: Slice)
      requires Inv(World()) && PoolsOk(alloc.View()) && 0 < |data| < MAX_SIZE
      modifies mem, alloc
      ensures Filled(old(World()), data, pick, newbuf)
    {
      hide Inv, Views, GetFrom, Arrive, Overwrite, PoolsOk;
      ArriveIs(World(), data, pick, None);
      var next := alloc.next;
      var got := alloc.Get(|data|, pick);
      newbuf := got.value;
      if alloc.next != next {
        mem.Grow(newbuf.end);
      }
      mem.Store(newbuf, data);
    }

    lemma HasArrived(w: World, data: seq<byte>, pick: Option<nat>, to: Option<nat>, x: Slice)
      requires Inv(w) && w.inbox == [] && PoolsOk(w.pools) && 0 < |data| < MAX_SIZE && |made| == |w.streams|
      requires (to.Some? ==> to.value < |made|) && Filled(w, data, pick, x)
      requires forall k :: 0 <= k < |made| ==>
        made[k].View() == if to == Some(k) then Push(w.streams[k], x) else w.streams[k]
      ensures World() == Arrive(w, data, pick, to) && Inv(World())
      ensures forall k :: 0 <= k < |made| ==> Queue(World(), k) == Queue(w, k) + if to == Some(k) then data else []
    {
      hide Inv, Queue, Apply, GetFrom, Arrive, Overwrite, PoolsOk;
      ArriveIs(w, data, pick, to);
      assert Views() == if to.Some? then w.streams[to.value := Push(w.streams[to.value], x)] else w.streams;
      forall k | 0 <= k < |made|
        ensures Queue(World(), k) == Queue(w, k) + if to == Some(k) then data else []
      {
        ArriveQueues(w, data, pick, to, k);
      }
    }

    /** recvLoop under streamLock: push, then charge, then tell the reader. */
    method PushAndCharge(stream: Stream, newbuf: Slice, written: int)
      modifies stream`buffers, stream`heads, stream`chReadEvent, `bucket
      ensures stream.View() == Push(old(stream.View()), newbuf) && stream.chReadEvent
      ensures bucket == I32(old(bucket) - written)
      ensures old(Counted()) ==> Counted()
    {
      stream.PushBytes(newbuf);
      AddToBucket(-written);
      stream.chReadEvent := true;
    }

    /** recvLoop on a payload: a buffer from the allocator is filled, and pushed when the stream is known; only
        then is the bucket charged and the reader told. The payload joins the back of its stream's queue, and no byte
        of any other stream changes; nothing at all when the payload is empty. */
    method HandlePush(sid: uint32, data: seq<byte>, pick: Option<nat>, ghost to: Option<nat>)
      requires Valid() && |data| < 0x1_0000
      requires if sid in streams then to.Some? && to.value < |made| && made[to.value] == streams[sid] else to == None
      modifies this`bucket, mem, alloc
      modifies (if sid in streams then {streams[sid]} else {})`buffers
      modifies (if sid in streams then {streams[sid]} else {})`heads
      modifies (if sid in streams then {streams[sid]} else {})`chReadEvent
      ensures Valid()
      ensures World() == if data == [] then old(World()) else Arrive(old(World()), data, pick, to)
      ensures forall k :: 0 <= k < |made| ==>
        Queue(World(), k) == old(Queue(World(), k)) + if to == Some(k) then data else []
      ensures bucket == if sid in streams then I32(old(bucket) - |data|) else old(bucket)
      ensures sid in streams ==> streams[sid].chReadEvent == (old(streams[sid].chReadEvent) || data != [])
    {
      hide Inv, Queue, Arrive, PoolsOk, Filled, World, Views, I32, Counted;
      ghost var w := World();
      WorldIs();
      PoolsReady(w);
      if |data| > 0 {
        var newbuf := FilledBuffer(data, pick);
        if sid in streams {
          PushAndCharge(streams[sid], newbuf, |data|);
        }
        HasArrived(w, data, pick, to, newbuf);
      } else {
        assert forall k :: 0 <= k < |made| ==> Queue(w, k) + [] == Queue(w, k);
        BucketSame();
      }
    }
  }
}
