/** One stream between its opener, who writes, and its acceptor, who reads. A step is one section under a lock,
    one atomic operation or one channel operation; the two endpoints' steps interleave freely. The shaper's order
    is not assumed: a queued frame may be written at any time. */
module StreamLink {
  import opened Arith
  import opened Wire

  const INITIAL_PEER_WINDOW := 262144

  /** version is the session's, frameSize the opener's MaxFrameSize, streamBuf the acceptor's MaxStreamBuffer. */
  datatype Config = Config(version: int, frameSize: nat, streamBuf: uint32)

  predicate ConfigOk(c: Config) {
    (c.version == 1 || c.version == 2) && 0 < c.frameSize < 0x1_0000 && 0 < c.streamBuf < TWO_31
  }

  /** The frames of one stream. The wire carries consumed and window; total is the count that consumed was
      taken from before it wrapped, recorded only to state properties: no step looks at it. */
  datatype Msg = Syn | Psh(data: seq<byte>) | Fin | Upd(consumed: uint32, window: uint32, total: nat)

  /** Where the opener's writing goroutine is. bts are the bytes that the window allows, more the rest of b. */
  datatype Writer =
    | SynQueued | SynWritten                                              // in OpenStream
    | Idle
    | Top(b: seq<byte>)                                                   // at the head of the loop of Write
    | Measured(b: seq<byte>, inflight: int)                               // version 2: before reading peerWindow
    | Cutting(bts: seq<byte>, more: seq<byte>)
    | Queued(data: seq<byte>, bts: seq<byte>, more: seq<byte>)            // data is a frame with shaper or sendLoop
    | Written(data: seq<byte>, bts: seq<byte>, more: seq<byte>)           // its result is in, numWritten is not
    | Blocked(more: seq<byte>)                                            // waiting for a window update
    | Refused                                                             // returned ErrConsumed
    | FinQueued | FinWritten | Closed

  /** Where the acceptor's reading goroutine is. */
  datatype Reader = Ready | Acking(consumed: uint32) | AckQueued(consumed: uint32) | Empty | AtEof

  /** Where the opener's recvLoop is with an update for this stream. */
  datatype Updater =
    | NoUpdate | Parsed(consumed: uint32, window: uint32, total: nat) | StoredConsumed(window: uint32) | StoredWindow

  datatype Link = Link(
    // the opener
    writer: Writer, numWritten: uint32, peerConsumed: uint32, peerWindow: uint32, chUpdate: bool,
    recorded: bool, updater: Updater,
    // the two directions of the connection
    wire: seq<Msg>, back: seq<Msg>,
    // the acceptor
    registered: bool, buffers: seq<seq<byte>>, fin: bool, readEvent: bool,
    numRead: uint32, incr: uint32, reader: Reader,
    // history: all bytes passed to Write, all bytes that Read returned, and peerConsumed before it wrapped
    written: seq<byte>, taken: seq<byte>, acked: nat)

  const START := Link(SynQueued, 0, 0, INITIAL_PEER_WINDOW, false, false, NoUpdate, [], [],
                      false, [], false, false, 0, 0, Ready, [], [], 0)

  datatype Act =
    | SendForward          // the opener's sendLoop writes the queued frame and gives the result
    | Record               // OpenStream enters the stream in the map
    | CallWrite(b: seq<byte>)
    | Measure              // load numWritten and peerConsumed
    | OpenWindow           // load peerWindow and divide b
    | Cut                  // hand the next frame to the shaper, or leave the inner loop
    | Count                // add the frame to numWritten
    | TakeUpdate           // receive from chUpdate
    | CallClose
    | Forget               // streamClosed
    | Receive              // the acceptor's recvLoop handles the next frame
    | TryRead(max: nat)    // the section of tryRead or WriteTo under bufferLock
    | Ack                  // sendWindowUpdate hands its frame to the shaper
    | SendBack             // the acceptor's sendLoop writes it
    | WakeByEvent | WakeByFin
    | ReadAgain            // Read called after io.EOF
    | ParseUpdate          // the opener's recvLoop has read an update
    | StoreConsumed | StoreWindow | Signal

  // ---------- The steps ----------

  predicate Enabled(c: Config, l: Link, a: Act) {
    match a
    case SendForward => l.writer.SynQueued? || l.writer.Queued? || l.writer.FinQueued?
    case Record => l.writer.SynWritten?
    case CallWrite(b) => l.writer.Idle? && (c.version == 2 ==> |b| < TWO_31)
    case Measure => l.writer.Top?
    case OpenWindow => l.writer.Measured?
    case Cut => l.writer.Cutting?
    case Count => l.writer.Written?
    case TakeUpdate => l.writer.Blocked? && l.chUpdate
    case CallClose => l.writer.Idle?
    case Forget => l.writer.FinWritten?
    case Receive => l.wire != []
    case TryRead(max) => l.registered && l.reader.Ready? && max > 0
    case Ack => l.reader.Acking?
    case SendBack => l.reader.AckQueued?
    case WakeByEvent => l.reader.Empty? && l.readEvent
    case WakeByFin => l.reader.Empty? && l.fin
    case ReadAgain => l.reader.AtEof?
    case ParseUpdate => l.updater.NoUpdate? && l.back != []
    case StoreConsumed => l.updater.Parsed?
    case StoreWindow => l.updater.StoredConsumed?
    case Signal => l.updater.StoredWindow?
  }

  /** The frame that the writer has with the shaper. */
  function Outgoing(w: Writer): Msg
    requires w.SynQueued? || w.Queued? || w.FinQueued?
  {
    if w.SynQueued? then Syn else if w.FinQueued? then Fin else Psh(w.data)
  }

  function AfterSend(w: Writer): (r: Writer)
    requires w.SynQueued? || w.Queued? || w.FinQueued?
    ensures r.SynWritten? || r.FinWritten? || r.Written?
  {
    if w.SynQueued? then SynWritten else if w.FinQueued? then FinWritten else Written(w.data, w.bts, w.more)
  }

  /** Bytes in flight, as the source computes them from the two wrapped counters. */
  function Inflight(numWritten: uint32, peerConsumed: uint32): int {
    I32(numWritten - peerConsumed)
  }

  /** The head of the loop: version 1 sends everything, version 2 first looks at what is in flight. */
  function AfterMeasure(c: Config, l: Link): (r: Writer)
    requires l.writer.Top?
    ensures r.Cutting? || r.Idle? || r.Refused? || r.Measured?
  {
    var b := l.writer.b;
    if c.version == 1 then Cutting(b, [])
    else if b == [] then Idle
    else
      var inflight := Inflight(l.numWritten, l.peerConsumed);
      if inflight < 0 then Refused else Measured(b, inflight)
  }

  function AfterOpenWindow(b: seq<byte>, inflight: int, peerWindow: uint32): (r: Writer)
    ensures r.Cutting?
  {
    var win := I32(I32(peerWindow) - inflight);
    if win <= 0 then Cutting([], b)
    else if win > I32(|b|) then Cutting(b, [])
    else
      var k := Min(win, |b|);
      Cutting(b[..k], b[k..])
  }

  function AfterCut(frameSize: nat, bts: seq<byte>, more: seq<byte>): (r: Writer)
    ensures r.Queued? || r.Blocked? || r.Idle?
  {
    if bts != [] then
      var sz := Min(|bts|, frameSize);
      Queued(bts[..sz], bts[sz..], more)
    else if more != [] then Blocked(more)
    else Idle
  }

  function ReadCount(l: Link, max: nat): nat {
    if l.buffers == [] then 0 else Min(max, |l.buffers[0]|)
  }

  /** Version 2: whether a read of n bytes makes the window update due: half a buffer has gathered, or the count of
      bytes read is n, as at the first read. The counter incr then starts again. */
  function UpdateDue(streamBuf: uint32, numRead: uint32, incr: uint32, n: nat): bool {
    Add32(incr, n) >= streamBuf / 2 || Add32(numRead, n) == U32(n)
  }

  function AckDue(c: Config, l: Link, n: nat): bool {
    UpdateDue(c.streamBuf, l.numRead, l.incr, n)
  }

  function AfterTryRead(c: Config, l: Link, max: nat): (r: Link)
    ensures r == l.(buffers := r.buffers, taken := r.taken, numRead := r.numRead, incr := r.incr, reader := r.reader)
  {
    var n := ReadCount(l, max);
    var rest := if n == 0 then l.buffers
                else if n == |l.buffers[0]| then l.buffers[1..]
                else l.buffers[0 := l.buffers[0][n..]];
    var m := l.(buffers := rest, taken := l.taken + if n == 0 then [] else l.buffers[0][..n]);
    if c.version == 1 then
      m.(reader := if n > 0 then Ready else Empty)
    else
      var numRead := U32(l.numRead + n);
      m.(numRead := numRead,
         incr := if AckDue(c, l, n) then 0 else U32(l.incr + n),
         reader := if n == 0 then Empty
                   else if AckDue(c, l, n) && numRead > 0 then Acking(numRead)
                   else Ready)
  }

  function AfterReceive(l: Link): (r: Link)
    requires l.wire != []
    ensures r == l.(wire := l.wire[1..], registered := r.registered, buffers := r.buffers, fin := r.fin,
                    readEvent := r.readEvent)
  {
    var m := l.(wire := l.wire[1..]);
    match l.wire[0]
    case Syn => if l.registered then m else m.(registered := true)
    case Psh(data) => if l.registered && data != [] then m.(buffers := l.buffers + [data], readEvent := true) else m
    case Fin => if l.registered then m.(fin := true, readEvent := true) else m
    case Upd(_, _, _) => m
  }

  function AfterParse(l: Link): (r: Link)
    requires l.back != []
    ensures r == l.(back := l.back[1..], updater := r.updater)
  {
    match l.back[0]
    case Upd(consumed, window, total) =>
      l.(back := l.back[1..], updater := if l.recorded then Parsed(consumed, window, total) else NoUpdate)
    case _ => l.(back := l.back[1..])
  }

  predicate WriterStep(a: Act) {
    a.SendForward? || a.Record? || a.CallWrite? || a.Measure? || a.OpenWindow? || a.Cut? || a.Count?
    || a.TakeUpdate? || a.CallClose? || a.Forget?
  }

  predicate UpdaterStep(a: Act) {
    a.ParseUpdate? || a.StoreConsumed? || a.StoreWindow? || a.Signal?
  }

  function ApplyWriter(c: Config, l: Link, a: Act): (r: Link)
    requires Enabled(c, l, a) && WriterStep(a)
    ensures r == l.(writer := r.writer, numWritten := r.numWritten, chUpdate := r.chUpdate, recorded := r.recorded,
                    wire := r.wire, written := r.written)
  {
    match a
    case SendForward => l.(writer := AfterSend(l.writer), wire := l.wire + [Outgoing(l.writer)])
    case Record => l.(writer := Idle, recorded := true)
    case CallWrite(b) => l.(writer := Top(b), written := l.written + b)
    case Measure => l.(writer := AfterMeasure(c, l))
    case OpenWindow => l.(writer := AfterOpenWindow(l.writer.b, l.writer.inflight, l.peerWindow))
    case Cut => l.(writer := AfterCut(c.frameSize, l.writer.bts, l.writer.more))
    case Count => l.(writer := Cutting(l.writer.bts, l.writer.more), numWritten := U32(l.numWritten + |l.writer.data|))
    case TakeUpdate => l.(writer := Top(l.writer.more), chUpdate := false)
    case CallClose => l.(writer := FinQueued)
    case Forget => l.(writer := Closed, recorded := false)
  }

  function ApplyUpdater(c: Config, l: Link, a: Act): (r: Link)
    requires Enabled(c, l, a) && UpdaterStep(a)
    ensures r == l.(back := r.back, updater := r.updater, peerConsumed := r.peerConsumed, peerWindow := r.peerWindow,
                    acked := r.acked, chUpdate := r.chUpdate)
    ensures r.acked == if a.StoreConsumed? then l.updater.total else l.acked
  {
    match a
    case ParseUpdate => AfterParse(l)
    case StoreConsumed =>
      l.(peerConsumed := l.updater.consumed, acked := l.updater.total, updater := StoredConsumed(l.updater.window))
    case StoreWindow => l.(peerWindow := l.updater.window, updater := StoredWindow)
    case Signal => l.(chUpdate := true, updater := NoUpdate)
  }

  function ApplyAcceptor(c: Config, l: Link, a: Act): (r: Link)
    requires Enabled(c, l, a) && !WriterStep(a) && !UpdaterStep(a)
    ensures r == l.(wire := r.wire, back := r.back, registered := r.registered, buffers := r.buffers, fin := r.fin,
                    readEvent := r.readEvent, numRead := r.numRead, incr := r.incr, reader := r.reader,
                    taken := r.taken)
  {
    match a
    case Receive => AfterReceive(l)
    case TryRead(max) => AfterTryRead(c, l, max)
    case Ack => l.(reader := AckQueued(l.reader.consumed))
    case SendBack => l.(reader := Ready, back := l.back + [Upd(l.reader.consumed, c.streamBuf, |l.taken|)])
    case WakeByEvent => l.(reader := Ready, readEvent := false)
    case WakeByFin => l.(reader := if l.buffers != [] then Ready else AtEof)
    case ReadAgain => l.(reader := Ready)
  }

  /** A step of the opener's writer, of the opener's recvLoop, or of the acceptor. */
  function Apply(c: Config, l: Link, a: Act): Link
    requires Enabled(c, l, a)
  {
    if WriterStep(a) then ApplyWriter(c, l, a)
    else if UpdaterStep(a) then ApplyUpdater(c, l, a)
    else ApplyAcceptor(c, l, a)
  }

  /** What a step puts on the two wires, or takes off them. */
  lemma StepOnWires(c: Config, l: Link, a: Act)
    requires Enabled(c, l, a)
    ensures a.SendForward? ==> l.writer.SynQueued? || l.writer.Queued? || l.writer.FinQueued?
    ensures a.SendBack? ==> l.reader.AckQueued?
    ensures Apply(c, l, a).wire ==
      if a.SendForward? then l.wire + [Outgoing(l.writer)] else if a.Receive? then l.wire[1..] else l.wire
    ensures Apply(c, l, a).back ==
      if a.SendBack? then l.back + [Upd(l.reader.consumed, c.streamBuf, |l.taken|)]
      else if a.ParseUpdate? then l.back[1..] else l.back
  {
    hide AfterTryRead, AfterParse, AfterReceive, AfterMeasure, AfterOpenWindow, AfterCut;
  }

  // ---------- Where the bytes are ----------

  function Flat(chunks: seq<seq<byte>>): seq<byte> {
    if chunks == [] then [] else chunks[0] + Flat(chunks[1..])
  }

  function DataOf(ms: seq<Msg>): seq<byte> {
    if ms == [] then [] else (if ms[0].Psh? then ms[0].data else []) + DataOf(ms[1..])
  }

  /** Bytes passed to Write and not yet cut into frames. */
  function Uncut(w: Writer): seq<byte> {
    match w
    case Top(b) => b
    case Measured(b, _) => b
    case Cutting(bts, more) => bts + more
    case Queued(_, bts, more) => bts + more
    case Written(_, bts, more) => bts + more
    case Blocked(more) => more
    case _ => []
  }

  /** Bytes in a frame that waits in the shaper or sendLoop. */
  function Pending(w: Writer): seq<byte> {
    if w.Queued? then w.data else []
  }

  /** Everything passed to Write is read, buffered at the receiver, on the wire, pending, or not yet cut. */
  ghost predicate Conserved(l: Link) {
    l.written == l.taken + (Flat(l.buffers) + (DataOf(l.wire) + (Pending(l.writer) + Uncut(l.writer))))
  }

  predicate FinGone(w: Writer) {
    w.FinWritten? || w.Closed?
  }

  ghost predicate WireOk(c: Config, l: Link) {
    && (forall i :: 0 <= i < |l.wire| ==>
          && !l.wire[i].Upd?
          && (l.wire[i].Syn? ==> i == 0 && !l.registered)
          && (l.wire[i].Fin? ==> i == |l.wire| - 1 && FinGone(l.writer))
          && (l.wire[i].Psh? ==> 0 < |l.wire[i].data| <= c.frameSize))
    && (!l.registered ==> l.buffers == [] && !l.fin)
    && (!l.registered ==> if l.wire == [] then l.writer.SynQueued? else l.wire[0].Syn?)
    && (l.writer.SynQueued? ==> l.wire == [] && !l.registered)
    && (l.fin ==> l.wire == [] && FinGone(l.writer))
    && (l.writer.Queued? ==> 0 < |l.writer.data| <= c.frameSize)
    && (forall i :: 0 <= i < |l.buffers| ==> 0 < |l.buffers[i]| <= c.frameSize)
    && (l.reader.AtEof? ==> l.fin && l.buffers == [])
    && (l.writer.SynQueued? || l.writer.SynWritten? ==> l.written == [])
    && !l.writer.Refused?
    && (forall i :: 0 <= i < |l.back| ==> l.back[i].Upd?)
    && (l.recorded <==> !l.writer.SynQueued? && !l.writer.SynWritten? && !l.writer.Closed?)
  }

  // ---------- The window of version 2 ----------

  /** Bytes cut into frames so far. */
  function Sent(l: Link): int {
    |l.written| - |Uncut(l.writer)|
  }

  /** Bytes cut and not yet added to numWritten. */
  function Uncounted(w: Writer): nat {
    if w.Queued? || w.Written? then |w.data| else 0
  }

  /** Bytes that the window allows and that are not yet cut. */
  function Allowed(w: Writer): nat {
    if w.Cutting? || w.Queued? || w.Written? then |w.bts| else 0
  }

  function MaxWindow(c: Config): nat {
    Max(INITIAL_PEER_WINDOW, c.streamBuf)
  }

  /** Updates on their way, oldest first: honest counts that never go down, from lo up to hi. */
  predicate HonestUpdates(c: Config, ms: seq<Msg>, lo: nat, hi: nat) {
    if ms == [] then lo <= hi
    else
      && ms[0].Upd? && ms[0].consumed == U32(ms[0].total) && ms[0].window == c.streamBuf
      && lo <= ms[0].total && ms[0].total > 0 && HonestUpdates(c, ms[1..], ms[0].total, hi)
  }

  function LastTotal(ms: seq<Msg>, lo: nat): nat {
    if ms == [] then lo else LastTotal(ms[1..], if ms[0].Upd? then ms[0].total else lo)
  }

  /** The count in the update that recvLoop has in hand, or else the one it has stored. */
  function FirstTotal(l: Link): nat {
    if l.updater.Parsed? then l.updater.total else l.acked
  }

  ghost predicate UpdatesOk(c: Config, l: Link) {
    && HonestUpdates(c, l.back, FirstTotal(l), |l.taken|)
    && (l.updater.Parsed? ==>
          && l.updater.consumed == U32(l.updater.total) && l.updater.window == c.streamBuf
          && l.acked <= l.updater.total <= |l.taken| && l.updater.total > 0)
    && (l.updater.StoredConsumed? ==> l.updater.window == c.streamBuf)
    && (l.reader.Acking? || l.reader.AckQueued? ==> l.reader.consumed == U32(|l.taken|) && l.taken != [])
    && l.acked <= |l.taken|
    && l.peerConsumed == U32(l.acked)
    && l.numRead == U32(|l.taken|)
    && (l.peerWindow == INITIAL_PEER_WINDOW || l.peerWindow == c.streamBuf)
  }

  /** The 32-bit counters are the true ones, wrapped, and the window is respected. */
  ghost predicate WindowOk(c: Config, l: Link) {
    && l.numWritten == U32(Sent(l) - Uncounted(l.writer))
    && Sent(l) + Allowed(l.writer) <= l.acked + MaxWindow(c)
    && (l.writer.Measured? ==> 0 <= l.writer.inflight <= MaxWindow(c) && Sent(l) - l.writer.inflight <= l.acked)
    && (l.writer.Top? || l.writer.Measured? ==> |l.writer.b| < TWO_31)
    && (l.writer.Measured? ==> l.writer.b != [])
    && (l.writer.Cutting? || l.writer.Queued? || l.writer.Written? ==> |l.writer.bts + l.writer.more| < TWO_31)
    && (l.writer.Blocked? ==> 0 < |l.writer.more| < TWO_31)
  }

  /** recvLoop is between storing an update and signalling it. */
  predicate Committed(l: Link) {
    l.updater.StoredConsumed? || l.updater.StoredWindow?
  }

  /** What the writer knows is up to date, unless a signal is there for it or about to come. */
  ghost predicate SignalOk(l: Link) {
    !l.chUpdate && !Committed(l) ==>
      && (l.writer.Measured? ==> l.writer.inflight == Sent(l) - l.acked)
      && (l.writer.Blocked? ==> l.acked + l.peerWindow <= Sent(l))
      && ((l.writer.Cutting? || l.writer.Queued? || l.writer.Written?) && l.writer.more != [] ==>
            l.acked + l.peerWindow <= Sent(l) + |l.writer.bts|)
  }

  /** The last count that the acceptor has reported, wherever the report is now. */
  function LastAck(l: Link): nat {
    if l.reader.Acking? || l.reader.AckQueued? then |l.taken| else LastTotal(l.back, FirstTotal(l))
  }

  /** Bytes taken and not reported. */
  function Unreported(l: Link): int {
    |l.taken| - LastAck(l)
  }

  /** How much incr may have gathered without a report falling due. */
  function Slack(c: Config): nat {
    Max(0, c.streamBuf / 2 - 1)
  }

  /** The count of bytes read has wrapped to zero just now; a count of zero is never sent. */
  predicate AtWrap(l: Link) {
    l.taken != [] && U32(|l.taken|) == 0
  }

  /** Away from a wrap incr is what is unreported, and that is less than half a buffer. */
  ghost predicate AcksOk(c: Config, l: Link) {
    && (!l.writer.Closed? ==>
          && (!AtWrap(l) ==> l.incr == Unreported(l) <= Slack(c))
          && (AtWrap(l) ==> l.incr <= Unreported(l) <= Slack(c) + c.frameSize)
          && (l.taken != [] ==> LastAck(l) > 0))
    && (l.acked > 0 && !l.updater.StoredConsumed? ==> l.peerWindow == c.streamBuf)
  }

  /** A reader that waits while there is data has an event. */
  predicate ReaderTold(l: Link) {
    l.reader.Empty? && l.buffers != [] ==> l.readEvent
  }

  ghost predicate Inv(c: Config, l: Link) {
    && ConfigOk(c) && Conserved(l) && WireOk(c, l) && ReaderTold(l)
    && (c.version == 2 ==> UpdatesOk(c, l) && WindowOk(c, l) && SignalOk(l) && AcksOk(c, l))
  }

  // ---------- Each step keeps the invariant ----------

  lemma {:induction false} FlatConcat(chunks: seq<seq<byte>>, data: seq<byte>)
    ensures Flat(chunks + [data]) == Flat(chunks) + data
  {
    if chunks == [] {
      assert chunks + [data] == [data];
      assert Flat([data]) == data + Flat([data][1..]);
    } else {
      FlatConcat(chunks[1..], data);
      assert (chunks + [data])[1..] == chunks[1..] + [data];
    }
  }

  lemma DataOfCons(m: Msg, ms: seq<Msg>)
    ensures DataOf([m] + ms) == (if m.Psh? then m.data else []) + DataOf(ms)
  {
    assert ([m] + ms)[1..] == ms;
  }

  lemma {:induction false} DataOfConcat(ms: seq<Msg>, m: Msg)
    ensures DataOf(ms + [m]) == DataOf(ms) + if m.Psh? then m.data else []
  {
    var data := if m.Psh? then m.data else [];
    if ms == [] {
      assert ms + [m] == [m] + [];
      DataOfCons(m, []);
      assert data + [] == data == [] + data;
    } else {
      DataOfConcat(ms[1..], m);
      hide DataOf;
      DataOfCons(ms[0], ms[1..]);
      DataOfCons(ms[0], ms[1..] + [m]);
      assert ms == [ms[0]] + ms[1..] && ms + [m] == [ms[0]] + (ms[1..] + [m]);
      Regroup(if ms[0].Psh? then ms[0].data else [], DataOf(ms[1..]), data);
    }
  }

  lemma UncutAfterMeasure(c: Config, l: Link)
    requires l.writer.Top? && !AfterMeasure(c, l).Refused?
    ensures Uncut(AfterMeasure(c, l)) == l.writer.b && Pending(AfterMeasure(c, l)) == []
  {
    assert l.writer.b + [] == l.writer.b;
  }

  lemma UncutAfterOpenWindow(b: seq<byte>, inflight: int, peerWindow: uint32)
    ensures Uncut(AfterOpenWindow(b, inflight, peerWindow)) == b
    ensures Pending(AfterOpenWindow(b, inflight, peerWindow)) == []
  {
    assert b + [] == b && [] + b == b;
  }

  lemma UncutAfterCut(frameSize: nat, bts: seq<byte>, more: seq<byte>)
    ensures var w := AfterCut(frameSize, bts, more); Pending(w) + Uncut(w) == bts + more
  {
    var w := AfterCut(frameSize, bts, more);
    if bts != [] {
      assert w.data + (w.bts + w.more) == bts + more;
    } else {
      assert bts + more == more;
    }
  }

  lemma Regroup(a: seq<byte>, x: seq<byte>, b: seq<byte>)
    ensures a + (x + b) == (a + x) + b
  {}

  lemma SendForwardConserves(l: Link)
    requires Conserved(l) && (l.writer.SynQueued? || l.writer.Queued? || l.writer.FinQueued?)
    ensures Conserved(l.(writer := AfterSend(l.writer), wire := l.wire + [Outgoing(l.writer)]))
  {
    var w, data := l.writer, Pending(l.writer);
    DataOfConcat(l.wire, Outgoing(w));
    Regroup(DataOf(l.wire), data, Uncut(w));
    assert Uncut(w) == Uncut(AfterSend(w)) && [] + Uncut(w) == Uncut(w);
    hide DataOf, Flat;
    assert !w.Queued? ==> DataOf(l.wire) + [] == DataOf(l.wire);
  }

  lemma CallWriteConserves(l: Link, b: seq<byte>)
    requires Conserved(l) && l.writer.Idle?
    ensures Conserved(l.(writer := Top(b), written := l.written + b))
  {
    hide Flat, DataOf;
    var t, f, d := l.taken, Flat(l.buffers), DataOf(l.wire);
    assert [] + b == b && d + ([] + []) == d;
    Regroup(t, f, d);
    Regroup(t + f, d, b);
    Regroup(t, f, d + b);
  }

  lemma ReceiveConserves(l: Link, data: seq<byte>)
    requires Conserved(l) && l.wire != [] && l.wire[0] == Psh(data)
    ensures Conserved(l.(wire := l.wire[1..], buffers := l.buffers + [data]))
  {
    FlatConcat(l.buffers, data);
    var rest := DataOf(l.wire[1..]);
    assert DataOf(l.wire) == data + rest;
    hide Flat, DataOf;
    var x := Pending(l.writer) + Uncut(l.writer);
    Regroup(data, rest, x);
    Regroup(Flat(l.buffers), data, rest + x);
  }

  lemma TakeConserves(l: Link, n: nat)
    requires Conserved(l) && l.buffers != [] && 0 < n <= |l.buffers[0]|
    ensures Conserved(l.(taken := l.taken + l.buffers[0][..n],
      buffers := if n == |l.buffers[0]| then l.buffers[1..] else l.buffers[0 := l.buffers[0][n..]]))
  {
    var x, y := l.buffers[0][..n], l.buffers[0][n..];
    var rest := Flat(l.buffers[1..]);
    var buffers := if n == |l.buffers[0]| then l.buffers[1..] else l.buffers[0 := y];
    assert l.buffers[0] == x + y;
    if n == |l.buffers[0]| {
      assert y + rest == rest;
    } else {
      assert buffers[1..] == l.buffers[1..];
    }
    assert Flat(buffers) == y + rest;
    Regroup(x, y, rest);
    assert Flat(l.buffers) == x + Flat(buffers);
    hide Flat, DataOf;
    var z := DataOf(l.wire) + (Pending(l.writer) + Uncut(l.writer));
    Regroup(x, Flat(buffers), z);
    Regroup(l.taken, x, Flat(buffers) + z);
  }

  lemma ReceiveKeepsConserved(c: Config, l: Link)
    requires Conserved(l) && WireOk(c, l) && l.wire != []
    ensures Conserved(AfterReceive(l))
  {
    if l.wire[0].Psh? {
      ReceiveConserves(l, l.wire[0].data);
    } else {
      assert [] + DataOf(l.wire[1..]) == DataOf(l.wire[1..]);
    }
  }

  lemma TryReadKeepsConserved(c: Config, l: Link, max: nat)
    requires Conserved(l) && WireOk(c, l) && max > 0
    ensures Conserved(AfterTryRead(c, l, max))
  {
    hide AckDue, Conserved;
    var n := ReadCount(l, max);
    var rest := if n == 0 then l.buffers
                else if n == |l.buffers[0]| then l.buffers[1..] else l.buffers[0 := l.buffers[0][n..]];
    var m := l.(buffers := rest, taken := l.taken + if n == 0 then [] else l.buffers[0][..n]);
    assert Conserved(m) by {
      if n > 0 {
        TakeConserves(l, n);
      } else {
        assert l.taken + [] == l.taken;
      }
    }
    var m' := AfterTryRead(c, l, max);
    assert m'.buffers == m.buffers && m'.taken == m.taken && m'.written == m.written;
    assert m'.wire == m.wire && m'.writer == m.writer;
    SameBytesConserved(m, m');
  }

  lemma SameBytesConserved(l: Link, m: Link)
    requires Conserved(l) && m.written == l.written && m.taken == l.taken && m.buffers == l.buffers && m.wire == l.wire
    requires Pending(m.writer) + Uncut(m.writer) == Pending(l.writer) + Uncut(l.writer)
    ensures Conserved(m)
  {}

  lemma WriterMovesBytes(c: Config, l: Link, a: Act)
    requires Enabled(c, l, a) && WriterStep(a) && !a.SendForward? && !a.CallWrite?
    requires !ApplyWriter(c, l, a).writer.Refused?
    ensures var w := ApplyWriter(c, l, a).writer; Pending(w) + Uncut(w) == Pending(l.writer) + Uncut(l.writer)
  {
    hide AfterMeasure, AfterOpenWindow, AfterCut, U32;
    if a.Measure? {
      UncutAfterMeasure(c, l);
    } else if a.OpenWindow? {
      UncutAfterOpenWindow(l.writer.b, l.writer.inflight, l.peerWindow);
    } else if a.Cut? {
      UncutAfterCut(c.frameSize, l.writer.bts, l.writer.more);
    }
  }

  lemma WriterKeepsConserved(c: Config, l: Link, a: Act)
    requires Conserved(l) && Enabled(c, l, a) && WriterStep(a) && !ApplyWriter(c, l, a).writer.Refused?
    ensures Conserved(ApplyWriter(c, l, a))
  {
    hide Conserved, AfterMeasure, AfterOpenWindow, AfterCut, Uncut, Pending, Outgoing, AfterSend;
    if a.SendForward? {
      SendForwardConserves(l);
    } else if a.CallWrite? {
      CallWriteConserves(l, a.b);
    } else {
      WriterMovesBytes(c, l, a);
      assert ApplyWriter(c, l, a).wire == l.wire && ApplyWriter(c, l, a).written == l.written;
      hide Enabled, ApplyWriter, WriterStep;
      SameBytesConserved(l, ApplyWriter(c, l, a));
    }
  }

  lemma AcceptorKeepsConserved(c: Config, l: Link, a: Act)
    requires Conserved(l) && WireOk(c, l) && Enabled(c, l, a) && !WriterStep(a) && !UpdaterStep(a)
    ensures Conserved(ApplyAcceptor(c, l, a))
  {
    hide Conserved, WireOk, AfterReceive, AfterTryRead;
    if a.Receive? {
      ReceiveKeepsConserved(c, l);
    } else if a.TryRead? {
      TryReadKeepsConserved(c, l, a.max);
    } else {
      SameBytesConserved(l, ApplyAcceptor(c, l, a));
    }
  }

  lemma ConservedKept(c: Config, l: Link, a: Act)
    requires Conserved(l) && WireOk(c, l) && Enabled(c, l, a) && !Apply(c, l, a).writer.Refused?
    ensures Conserved(Apply(c, l, a))
  {
    hide Conserved, WireOk, Enabled, WriterStep, UpdaterStep, ApplyWriter, ApplyUpdater, ApplyAcceptor;
    if WriterStep(a) {
      WriterKeepsConserved(c, l, a);
    } else if UpdaterStep(a) {
      SameBytesConserved(l, ApplyUpdater(c, l, a));
    } else {
      AcceptorKeepsConserved(c, l, a);
    }
  }

  lemma SendForwardKeepsWire(c: Config, l: Link)
    requires WireOk(c, l) && Enabled(c, l, SendForward)
    ensures WireOk(c, Apply(c, l, SendForward))
  {
    var m := Apply(c, l, SendForward);
    forall i | 0 <= i < |m.wire|
      ensures !m.wire[i].Upd? && (m.wire[i].Syn? ==> i == 0 && !m.registered)
      ensures m.wire[i].Fin? ==> i == |m.wire| - 1 && FinGone(m.writer)
      ensures m.wire[i].Psh? ==> 0 < |m.wire[i].data| <= c.frameSize
    {
      if i < |l.wire| {
        assert m.wire[i] == l.wire[i];
      }
    }
  }

  lemma ReceiveKeepsWire(c: Config, l: Link)
    requires WireOk(c, l) && l.wire != []
    ensures WireOk(c, AfterReceive(l))
  {
    var m := AfterReceive(l);
    forall i | 0 <= i < |m.wire|
      ensures !m.wire[i].Upd? && !m.wire[i].Syn?
      ensures m.wire[i].Fin? ==> i == |m.wire| - 1 && FinGone(m.writer)
      ensures m.wire[i].Psh? ==> 0 < |m.wire[i].data| <= c.frameSize
    {
      assert m.wire[i] == l.wire[i + 1];
    }
    assert l.wire[0] == l.wire[0];
  }

  lemma ReadKeepsSizes(c: Config, l: Link, max: nat)
    requires Enabled(c, l, TryRead(max)) && forall i :: 0 <= i < |l.buffers| ==> 0 < |l.buffers[i]| <= c.frameSize
    ensures var m := AfterTryRead(c, l, max); forall i :: 0 <= i < |m.buffers| ==> 0 < |m.buffers[i]| <= c.frameSize
  {
    hide AckDue, U32;
  }

  lemma TryReadKeepsWire(c: Config, l: Link, max: nat)
    requires WireOk(c, l) && Enabled(c, l, TryRead(max))
    ensures WireOk(c, AfterTryRead(c, l, max))
  {
    ReadKeepsSizes(c, l, max);
    hide AckDue, U32, ReadCount;
  }

  lemma WriterStepKeepsWire(c: Config, l: Link, a: Act)
    requires WireOk(c, l) && Enabled(c, l, a) && c.frameSize > 0 && WriterStep(a) && !a.SendForward?
    requires !ApplyWriter(c, l, a).writer.Refused?
    ensures WireOk(c, ApplyWriter(c, l, a))
  {
    hide AfterSend, AfterOpenWindow, Outgoing, U32, Inflight;
    var m := ApplyWriter(c, l, a);
    assert m.wire == l.wire;
  }

  lemma SameWire(c: Config, l: Link, m: Link)
    requires WireOk(c, l) && m.wire == l.wire && m.registered == l.registered && m.buffers == l.buffers
    requires m.recorded == l.recorded && m.fin == l.fin && m.writer == l.writer && m.written == l.written
    requires m.reader.AtEof? ==> l.reader.AtEof? || (l.fin && l.buffers == [])
    requires forall i :: 0 <= i < |m.back| ==> m.back[i].Upd? || m.back[i] in l.back
    ensures WireOk(c, m)
  {}

  lemma AcceptorKeepsWire(c: Config, l: Link, a: Act)
    requires WireOk(c, l) && Enabled(c, l, a) && !WriterStep(a) && !UpdaterStep(a)
    ensures WireOk(c, ApplyAcceptor(c, l, a))
  {
    hide WireOk, AfterReceive, AfterTryRead;
    if a.Receive? {
      ReceiveKeepsWire(c, l);
    } else if a.TryRead? {
      TryReadKeepsWire(c, l, a.max);
    } else {
      SameWire(c, l, ApplyAcceptor(c, l, a));
    }
  }

  lemma UpdaterKeepsBack(c: Config, l: Link, a: Act)
    requires Enabled(c, l, a) && UpdaterStep(a)
    ensures ApplyUpdater(c, l, a).back == l.back || (l.back != [] && ApplyUpdater(c, l, a).back == l.back[1..])
  {
    hide AfterParse;
  }

  lemma WireOkKept(c: Config, l: Link, a: Act)
    requires WireOk(c, l) && Enabled(c, l, a) && c.frameSize > 0 && !Apply(c, l, a).writer.Refused?
    ensures WireOk(c, Apply(c, l, a))
  {
    hide WireOk, Enabled, WriterStep, UpdaterStep, ApplyWriter, ApplyUpdater, ApplyAcceptor;
    if WriterStep(a) {
      if a.SendForward? {
        SendForwardKeepsWire(c, l);
      } else {
        WriterStepKeepsWire(c, l, a);
      }
    } else if UpdaterStep(a) {
      UpdaterKeepsBack(c, l, a);
      SameWire(c, l, ApplyUpdater(c, l, a));
    } else {
      AcceptorKeepsWire(c, l, a);
    }
  }

  /** Bytes cut into frames are pending, on the wire, buffered or taken. */
  lemma SentIsSomewhere(l: Link)
    requires Conserved(l)
    ensures Sent(l) == |l.taken| + |Flat(l.buffers)| + |DataOf(l.wire)| + |Pending(l.writer)|
  {}

  lemma {:induction false} HonestUpdatesSnoc(c: Config, ms: seq<Msg>, lo: nat, hi: nat, m: Msg)
    requires HonestUpdates(c, ms, lo, hi) && m == Upd(U32(hi), c.streamBuf, hi) && hi > 0
    ensures HonestUpdates(c, ms + [m], lo, hi) && LastTotal(ms + [m], lo) == hi
  {
    if ms == [] {
      assert ms + [m] == [m];
      assert [m][1..] == [];
      assert HonestUpdates(c, [m][1..], hi, hi) && LastTotal([m][1..], hi) == hi;
    } else {
      HonestUpdatesSnoc(c, ms[1..], ms[0].total, hi, m);
      assert (ms + [m])[1..] == ms[1..] + [m];
    }
  }

  lemma {:induction false} HonestUpdatesRaise(c: Config, ms: seq<Msg>, lo: nat, hi: nat, hi': nat)
    requires HonestUpdates(c, ms, lo, hi) && hi <= hi'
    ensures HonestUpdates(c, ms, lo, hi')
    ensures lo <= LastTotal(ms, lo) <= hi
  {
    if ms != [] {
      HonestUpdatesRaise(c, ms[1..], ms[0].total, hi, hi');
    }
  }

  lemma SameUpdates(c: Config, l: Link, m: Link)
    requires UpdatesOk(c, l) && m.back == l.back && m.updater == l.updater && m.acked == l.acked
    requires m.peerConsumed == l.peerConsumed && m.peerWindow == l.peerWindow
    requires m.taken == l.taken && m.numRead == l.numRead
    requires m.reader == l.reader || !(m.reader.Acking? || m.reader.AckQueued?)
    ensures UpdatesOk(c, m)
  {}

  lemma TryReadKeepsUpdates(c: Config, l: Link, max: nat)
    requires c.version == 2 && UpdatesOk(c, l) && l.reader.Ready?
    ensures UpdatesOk(c, AfterTryRead(c, l, max))
  {
    hide AckDue, HonestUpdates;
    var n := ReadCount(l, max);
    var m := AfterTryRead(c, l, max);
    assert |m.taken| == |l.taken| + n && m.back == l.back && m.updater == l.updater && m.acked == l.acked;
    WrappedSum(|l.taken|, n);
    HonestUpdatesRaise(c, l.back, FirstTotal(l), |l.taken|, |m.taken|);
  }

  lemma SendBackKeepsUpdates(c: Config, l: Link)
    requires UpdatesOk(c, l) && l.reader.AckQueued?
    ensures UpdatesOk(c, l.(reader := Ready, back := l.back + [Upd(l.reader.consumed, c.streamBuf, |l.taken|)]))
  {
    hide U32;
    HonestUpdatesSnoc(c, l.back, FirstTotal(l), |l.taken|, Upd(l.reader.consumed, c.streamBuf, |l.taken|));
  }

  lemma {:induction false} HonestUpdatesLower(c: Config, ms: seq<Msg>, lo: nat, lo': nat, hi: nat)
    requires HonestUpdates(c, ms, lo, hi) && lo' <= lo <= hi
    ensures HonestUpdates(c, ms, lo', hi)
  {}

  lemma ParseKeepsUpdates(c: Config, l: Link)
    requires UpdatesOk(c, l) && l.updater.NoUpdate? && l.back != []
    ensures UpdatesOk(c, AfterParse(l))
  {
    hide U32;
    var first, rest := l.back[0], l.back[1..];
    HonestUpdatesRaise(c, rest, first.total, |l.taken|, |l.taken|);
    if !l.recorded {
      HonestUpdatesLower(c, rest, first.total, l.acked, |l.taken|);
    }
  }

  lemma StoreKeepsUpdates(c: Config, l: Link, a: Act)
    requires UpdatesOk(c, l) && Enabled(c, l, a) && (a.StoreConsumed? || a.StoreWindow? || a.Signal?)
    ensures UpdatesOk(c, ApplyUpdater(c, l, a))
  {
    hide U32, HonestUpdates;
  }

  lemma AckKeepsUpdates(c: Config, l: Link)
    requires UpdatesOk(c, l) && l.reader.Acking?
    ensures UpdatesOk(c, l.(reader := AckQueued(l.reader.consumed)))
  {}

  lemma UpdaterKeepsUpdates(c: Config, l: Link, a: Act)
    requires UpdatesOk(c, l) && Enabled(c, l, a) && UpdaterStep(a)
    ensures UpdatesOk(c, ApplyUpdater(c, l, a))
  {
    hide UpdatesOk, AfterParse;
    if a.ParseUpdate? {
      ParseKeepsUpdates(c, l);
    } else {
      StoreKeepsUpdates(c, l, a);
    }
  }

  lemma AcceptorKeepsUpdates(c: Config, l: Link, a: Act)
    requires c.version == 2 && UpdatesOk(c, l) && Enabled(c, l, a) && !WriterStep(a) && !UpdaterStep(a)
    ensures UpdatesOk(c, ApplyAcceptor(c, l, a))
  {
    hide UpdatesOk, AfterTryRead, AfterReceive;
    if a.TryRead? {
      TryReadKeepsUpdates(c, l, a.max);
    } else if a.SendBack? {
      SendBackKeepsUpdates(c, l);
    } else if a.Ack? {
      AckKeepsUpdates(c, l);
    } else {
      SameUpdates(c, l, ApplyAcceptor(c, l, a));
    }
  }

  lemma UpdatesOkKept(c: Config, l: Link, a: Act)
    requires c.version == 2 && UpdatesOk(c, l) && Enabled(c, l, a)
    ensures UpdatesOk(c, Apply(c, l, a))
  {
    hide UpdatesOk, Enabled, WriterStep, UpdaterStep, ApplyWriter, ApplyUpdater, ApplyAcceptor;
    if WriterStep(a) {
      SameUpdates(c, l, ApplyWriter(c, l, a));
    } else if UpdaterStep(a) {
      UpdaterKeepsUpdates(c, l, a);
    } else {
      AcceptorKeepsUpdates(c, l, a);
    }
  }

  // ---------- The window ----------

  lemma SmallU32(x: int)
    requires 0 <= x < TWO_32
    ensures U32(x) == x
  {}

  lemma SmallI32(x: int)
    requires -TWO_31 <= x < TWO_31
    ensures I32(x) == x
  {}

  /** The 32-bit difference is the number of bytes in flight: ErrConsumed is never returned. */
  lemma MeasureKeepsWindow(c: Config, l: Link)
    requires ConfigOk(c) && c.version == 2 && UpdatesOk(c, l) && WindowOk(c, l) && l.writer.Top? && l.acked <= Sent(l)
    ensures WindowOk(c, l.(writer := AfterMeasure(c, l))) && !AfterMeasure(c, l).Refused?
    ensures l.writer.b != [] ==> AfterMeasure(c, l) == Measured(l.writer.b, Sent(l) - l.acked)
  {
    WrappedDifference(Sent(l), l.acked);
    hide U32, I32, HonestUpdates;
  }

  /** With n bytes counted as written and an update for m, both wrapped, ErrConsumed is returned exactly when n - m is
      negative in the sense of the wrap: more seems consumed than was written. */
  lemma RefusedIff(c: Config, l: Link, n: nat, m: nat)
    requires c.version == 2 && l.writer.Top? && l.writer.b != []
    requires l.numWritten == U32(n) && l.peerConsumed == U32(m)
    ensures AfterMeasure(c, l).Refused? <==> (n - m) % TWO_32 >= TWO_31
  {
    assert (l.numWritten - l.peerConsumed) - (n - m) == TWO_32 * (m / TWO_32 - n / TWO_32);
  }

  lemma OpenWindowSplits(c: Config, b: seq<byte>, inflight: int, peerWindow: uint32)
    requires ConfigOk(c) && 0 <= inflight <= MaxWindow(c) && 0 < |b| < TWO_31
    requires peerWindow == INITIAL_PEER_WINDOW || peerWindow == c.streamBuf
    ensures var w := AfterOpenWindow(b, inflight, peerWindow);
      && w.Cutting? && |w.bts| == Min(|b|, Max(0, peerWindow - inflight)) && |w.bts| + |w.more| == |b|
      && (w.more != [] ==> |w.bts| == Max(0, peerWindow - inflight))
  {
    SmallI32(peerWindow);
    SmallI32(peerWindow - inflight);
    SmallI32(|b|);
    hide I32;
  }

  /** The first round of a stream, before any update, takes what fits into 262144 bytes. */
  lemma FirstRoundTakes(b: seq<byte>)
    requires 0 < |b| < TWO_31
    ensures |AfterOpenWindow(b, 0, START.peerWindow).bts| == Min(|b|, 262144)
  {
    OpenWindowSplits(Config(2, 1, 1), b, 0, START.peerWindow);
    hide AfterOpenWindow;
  }

  /** A round keeps to a window that is open exactly when b fits into it or the length of b, cast to int32, is not
      below it: always for less than 2^31 bytes, but 2^31 bytes are sent all at once. */
  lemma OpenWindowFitsIff(b: seq<byte>, inflight: int, peerWindow: uint32)
    requires I32(I32(peerWindow) - inflight) > 0
    ensures var win, w := I32(I32(peerWindow) - inflight), AfterOpenWindow(b, inflight, peerWindow);
      && (|w.bts| <= win <==> |b| <= win || win <= I32(|b|))
      && (|b| < TWO_31 ==> |w.bts| <= win)
      && (|b| == TWO_31 ==> w.bts == b && |w.bts| > win)
  {
    if |b| < TWO_31 {
      SmallI32(|b|);
    }
    assert |b| == TWO_31 ==> I32(|b|) == -TWO_31;
    var win := I32(I32(peerWindow) - inflight);
    hide I32;
    assert b[..Min(win, |b|)] == b || |b| > win;
  }

  lemma OpenWindowKeepsWindow(c: Config, l: Link)
    requires ConfigOk(c) && c.version == 2 && UpdatesOk(c, l) && WindowOk(c, l) && l.writer.Measured?
    ensures WindowOk(c, l.(writer := AfterOpenWindow(l.writer.b, l.writer.inflight, l.peerWindow)))
  {
    OpenWindowSplits(c, l.writer.b, l.writer.inflight, l.peerWindow);
    hide AfterOpenWindow, HonestUpdates, U32;
  }

  lemma CutKeepsWindow(c: Config, l: Link)
    requires ConfigOk(c) && WindowOk(c, l) && l.writer.Cutting?
    ensures WindowOk(c, l.(writer := AfterCut(c.frameSize, l.writer.bts, l.writer.more)))
  {
    hide U32;
  }

  lemma CountKeepsWindow(c: Config, l: Link)
    requires WindowOk(c, l) && l.writer.Written?
    ensures WindowOk(c, Apply(c, l, Count))
  {
    WrappedSum(Sent(l) - Uncounted(l.writer), |l.writer.data|);
    hide U32;
  }

  lemma SameWindow(c: Config, l: Link, m: Link)
    requires WindowOk(c, l) && m.writer == l.writer && m.numWritten == l.numWritten && m.written == l.written
    requires l.acked <= m.acked
    ensures WindowOk(c, m)
  {}

  lemma OtherWriterStepKeepsWindow(c: Config, l: Link, a: Act)
    requires ConfigOk(c) && c.version == 2 && WindowOk(c, l) && Enabled(c, l, a)
    requires a.SendForward? || a.Record? || a.CallWrite? || a.TakeUpdate? || a.CallClose? || a.Forget?
    ensures WindowOk(c, Apply(c, l, a))
  {
    hide U32;
  }

  lemma AckedIsBehind(c: Config, l: Link)
    requires UpdatesOk(c, l) && Conserved(l)
    ensures l.acked <= |l.taken| <= Sent(l) && (l.updater.Parsed? ==> l.acked <= l.updater.total)
  {
    SentIsSomewhere(l);
  }

  lemma ByUpdater(c: Config, l: Link, a: Act)
    requires Enabled(c, l, a) && UpdaterStep(a)
    ensures !WriterStep(a) && Apply(c, l, a) == ApplyUpdater(c, l, a)
  {
    hide ApplyWriter, ApplyUpdater, ApplyAcceptor, Enabled;
  }

  lemma ByAcceptor(c: Config, l: Link, a: Act)
    requires Enabled(c, l, a) && !WriterStep(a) && !UpdaterStep(a)
    ensures Apply(c, l, a) == ApplyAcceptor(c, l, a) && !a.StoreConsumed?
  {
    hide ApplyWriter, ApplyUpdater, ApplyAcceptor, Enabled;
  }

  lemma OthersLeaveWriter(c: Config, l: Link, a: Act)
    requires Enabled(c, l, a) && !WriterStep(a)
    ensures var m := Apply(c, l, a);
      && m.writer == l.writer && m.numWritten == l.numWritten && m.written == l.written
      && m.acked == if a.StoreConsumed? then l.updater.total else l.acked
  {
    hide Apply, ApplyUpdater, ApplyAcceptor, WriterStep, UpdaterStep;
    if UpdaterStep(a) {
      ByUpdater(c, l, a);
    } else {
      ByAcceptor(c, l, a);
    }
  }

  /** For this it matters only that no more is acknowledged than was sent. */
  lemma WindowKeptBehind(c: Config, l: Link, a: Act)
    requires ConfigOk(c) && c.version == 2 && UpdatesOk(c, l) && WindowOk(c, l) && Enabled(c, l, a)
    requires l.acked <= Sent(l) && (l.updater.Parsed? ==> l.acked <= l.updater.total)
    ensures WindowOk(c, Apply(c, l, a))
  {
    hide UpdatesOk, WindowOk, AfterMeasure, AfterOpenWindow, AfterCut;
    if !WriterStep(a) {
      OthersLeaveWriter(c, l, a);
      hide Apply;
      SameWindow(c, l, Apply(c, l, a));
      return;
    }
    match a
    case Measure => MeasureKeepsWindow(c, l);
    case OpenWindow => OpenWindowKeepsWindow(c, l);
    case Cut => CutKeepsWindow(c, l);
    case Count => CountKeepsWindow(c, l);
    case SendForward => OtherWriterStepKeepsWindow(c, l, a);
    case Record => OtherWriterStepKeepsWindow(c, l, a);
    case CallWrite(_) => OtherWriterStepKeepsWindow(c, l, a);
    case TakeUpdate => OtherWriterStepKeepsWindow(c, l, a);
    case CallClose => OtherWriterStepKeepsWindow(c, l, a);
    case Forget => OtherWriterStepKeepsWindow(c, l, a);
  }

  lemma WindowOkKept(c: Config, l: Link, a: Act)
    requires ConfigOk(c) && c.version == 2 && UpdatesOk(c, l) && WindowOk(c, l) && Enabled(c, l, a)
    requires Conserved(l)
    ensures WindowOk(c, Apply(c, l, a))
  {
    AckedIsBehind(c, l);
    hide UpdatesOk, WindowOk, Conserved, Apply;
    WindowKeptBehind(c, l, a);
  }

  // ---------- Signals and reports ----------

  lemma SignalOkKept(c: Config, l: Link, a: Act)
    requires ConfigOk(c) && c.version == 2 && UpdatesOk(c, l) && WindowOk(c, l) && SignalOk(l) && Enabled(c, l, a)
    requires Conserved(l)
    ensures SignalOk(Apply(c, l, a))
  {
    AckedIsBehind(c, l);
    hide Conserved, UpdatesOk, WindowOk, SignalOk, WriterStep, Enabled, Apply;
    if a.Measure? {
      MeasureKeepsSignal(c, l);
    } else if a.OpenWindow? {
      OpenWindowKeepsSignal(c, l);
    } else if WriterStep(a) {
      WriterKeepsSignal(c, l, a);
    } else {
      OthersKeepSignal(c, l, a);
    }
  }

  lemma MeasureKeepsSignal(c: Config, l: Link)
    requires ConfigOk(c) && c.version == 2 && UpdatesOk(c, l) && WindowOk(c, l) && SignalOk(l) && Enabled(c, l, Measure)
    requires Conserved(l) && l.acked <= Sent(l)
    ensures SignalOk(Apply(c, l, Measure))
  {
    MeasureKeepsWindow(c, l);
    hide AfterMeasure, WindowOk, UpdatesOk, Conserved;
  }

  lemma OpenWindowKeepsSignal(c: Config, l: Link)
    requires ConfigOk(c) && c.version == 2 && UpdatesOk(c, l) && WindowOk(c, l) && SignalOk(l)
    requires Enabled(c, l, OpenWindow) && Conserved(l) && l.acked <= Sent(l)
    ensures SignalOk(Apply(c, l, OpenWindow))
  {
    OpenWindowSplits(c, l.writer.b, l.writer.inflight, l.peerWindow);
    hide AfterOpenWindow, UpdatesOk, Conserved;
  }

  lemma WriterKeepsSignal(c: Config, l: Link, a: Act)
    requires SignalOk(l) && Enabled(c, l, a) && WriterStep(a) && !a.Measure? && !a.OpenWindow? && l.acked <= Sent(l)
    ensures SignalOk(Apply(c, l, a))
  {
    hide AfterMeasure, AfterOpenWindow;
  }

  lemma OthersKeepSignal(c: Config, l: Link, a: Act)
    requires SignalOk(l) && Enabled(c, l, a) && !WriterStep(a)
    ensures SignalOk(Apply(c, l, a))
  {
    hide AfterReceive, AfterTryRead, AfterParse;
    OthersLeaveWriter(c, l, a);
  }

  lemma SameAcks(c: Config, l: Link, m: Link)
    requires AcksOk(c, l) && m.back == l.back && m.taken == l.taken && m.incr == l.incr
    requires m.updater == l.updater && m.acked == l.acked && m.peerWindow == l.peerWindow
    requires (m.reader.Acking? || m.reader.AckQueued?) == (l.reader.Acking? || l.reader.AckQueued?)
    requires l.writer.Closed? ==> m.writer.Closed?
    ensures AcksOk(c, m)
  {}

  /** A read reports exactly when half a buffer has gathered or nothing was read before, unless the count of bytes
      read is a multiple of 2^32 just then: a count of zero is not sent, and incr starts again all the same. */
  lemma ReadReportsIff(c: Config, l: Link, max: nat)
    requires c.version == 2 && UpdatesOk(c, l) && ReadCount(l, max) > 0
    ensures var m := AfterTryRead(c, l, max);
      && (m.reader.Acking? <==> AckDue(c, l, ReadCount(l, max)) && |m.taken| % TWO_32 != 0)
      && (m.incr == 0 <==> AckDue(c, l, ReadCount(l, max)) || U32(l.incr + ReadCount(l, max)) == 0)
  {
    hide AckDue, HonestUpdates;
    var n := ReadCount(l, max);
    assert |AfterTryRead(c, l, max).taken| == |l.taken| + n;
    WrappedSum(|l.taken|, n);
  }

  lemma TryReadKeepsAcks(c: Config, l: Link, max: nat)
    requires ConfigOk(c) && c.version == 2 && UpdatesOk(c, l) && AcksOk(c, l) && WireOk(c, l)
    requires Enabled(c, l, TryRead(max))
    ensures AcksOk(c, AfterTryRead(c, l, max))
  {
    hide U32, HonestUpdates, LastTotal, WireOk;
    var n := ReadCount(l, max);
    ReadCountFits(c, l, max);
    HonestUpdatesRaise(c, l.back, FirstTotal(l), |l.taken|, |l.taken|);
    WrappedSum(|l.taken|, n);
    SmallU32(n);
    SmallU32(0);
    if !l.writer.Closed? {
      SmallU32(l.incr + n);
    }
  }

  lemma ReadCountFits(c: Config, l: Link, max: nat)
    requires WireOk(c, l) && Enabled(c, l, TryRead(max))
    ensures ReadCount(l, max) <= c.frameSize && |AfterTryRead(c, l, max).taken| == |l.taken| + ReadCount(l, max)
    ensures l.buffers != [] ==> ReadCount(l, max) > 0
  {
    hide AckDue;
  }

  lemma SendBackKeepsAcks(c: Config, l: Link)
    requires UpdatesOk(c, l) && AcksOk(c, l) && l.reader.AckQueued?
    ensures AcksOk(c, l.(reader := Ready, back := l.back + [Upd(l.reader.consumed, c.streamBuf, |l.taken|)]))
  {
    HonestUpdatesSnoc(c, l.back, FirstTotal(l), |l.taken|, Upd(l.reader.consumed, c.streamBuf, |l.taken|));
    hide U32, HonestUpdates, LastTotal;
  }

  lemma ParseKeepsAcks(c: Config, l: Link)
    requires UpdatesOk(c, l) && AcksOk(c, l) && WireOk(c, l) && Conserved(l) && l.updater.NoUpdate? && l.back != []
    ensures AcksOk(c, AfterParse(l))
  {
    HonestUpdatesRaise(c, l.back[1..], l.back[0].total, |l.taken|, |l.taken|);
    SentIsSomewhere(l);
    hide U32, HonestUpdates, Conserved;
  }

  lemma StoreKeepsAcks(c: Config, l: Link, a: Act)
    requires UpdatesOk(c, l) && AcksOk(c, l) && Enabled(c, l, a) && (a.StoreConsumed? || a.StoreWindow? || a.Signal?)
    ensures AcksOk(c, ApplyUpdater(c, l, a))
  {
    hide U32, HonestUpdates, LastTotal;
  }

  lemma WriterKeepsAcks(c: Config, l: Link, a: Act)
    requires AcksOk(c, l) && Enabled(c, l, a) && WriterStep(a)
    ensures AcksOk(c, ApplyWriter(c, l, a))
  {
    assert !l.writer.Closed?;
    hide AcksOk, ApplyWriter, Enabled, WriterStep;
    SameAcks(c, l, ApplyWriter(c, l, a));
  }

  lemma UpdaterKeepsAcks(c: Config, l: Link, a: Act)
    requires UpdatesOk(c, l) && AcksOk(c, l) && WireOk(c, l) && Conserved(l) && Enabled(c, l, a) && UpdaterStep(a)
    ensures AcksOk(c, ApplyUpdater(c, l, a))
  {
    hide AcksOk, UpdatesOk, WireOk, Conserved, AfterParse;
    if a.ParseUpdate? {
      ParseKeepsAcks(c, l);
    } else {
      StoreKeepsAcks(c, l, a);
    }
  }

  lemma AcceptorKeepsAcks(c: Config, l: Link, a: Act)
    requires ConfigOk(c) && c.version == 2 && UpdatesOk(c, l) && AcksOk(c, l) && WireOk(c, l)
    requires Enabled(c, l, a) && !WriterStep(a) && !UpdaterStep(a)
    ensures AcksOk(c, ApplyAcceptor(c, l, a))
  {
    hide AcksOk, UpdatesOk, WireOk, AfterTryRead, AfterReceive;
    if a.TryRead? {
      TryReadKeepsAcks(c, l, a.max);
    } else if a.SendBack? {
      SendBackKeepsAcks(c, l);
    } else {
      SameAcks(c, l, ApplyAcceptor(c, l, a));
    }
  }

  lemma AcksOkKept(c: Config, l: Link, a: Act)
    requires ConfigOk(c) && c.version == 2 && UpdatesOk(c, l) && AcksOk(c, l) && WireOk(c, l) && Conserved(l)
    requires Enabled(c, l, a)
    ensures AcksOk(c, Apply(c, l, a))
  {
    hide AcksOk, UpdatesOk, WireOk, Conserved, Enabled, WriterStep, UpdaterStep;
    hide ApplyWriter, ApplyUpdater, ApplyAcceptor;
    if WriterStep(a) {
      WriterKeepsAcks(c, l, a);
    } else if UpdaterStep(a) {
      UpdaterKeepsAcks(c, l, a);
    } else {
      AcceptorKeepsAcks(c, l, a);
    }
  }

  lemma TryReadKeepsReaderTold(c: Config, l: Link, max: nat)
    requires ReaderTold(l) && Enabled(c, l, TryRead(max)) && (l.buffers != [] ==> |l.buffers[0]| > 0)
    ensures ReaderTold(AfterTryRead(c, l, max))
  {
    hide AckDue;
  }

  lemma AcceptorKeepsReaderTold(c: Config, l: Link, a: Act)
    requires ReaderTold(l) && WireOk(c, l) && Enabled(c, l, a) && !WriterStep(a) && !UpdaterStep(a)
    ensures ReaderTold(ApplyAcceptor(c, l, a))
  {
    assert l.buffers != [] ==> |l.buffers[0]| > 0;
    hide WireOk, AfterTryRead;
    if a.TryRead? {
      TryReadKeepsReaderTold(c, l, a.max);
    }
  }

  lemma ReaderToldKept(c: Config, l: Link, a: Act)
    requires ReaderTold(l) && WireOk(c, l) && Enabled(c, l, a)
    ensures ReaderTold(Apply(c, l, a))
  {
    hide WireOk, Enabled, WriterStep, UpdaterStep, ApplyWriter, ApplyUpdater, ApplyAcceptor;
    if !WriterStep(a) && !UpdaterStep(a) {
      AcceptorKeepsReaderTold(c, l, a);
    }
  }

  lemma MeasureIsNotRefused(c: Config, l: Link)
    requires Inv(c, l) && l.writer.Top?
    ensures !AfterMeasure(c, l).Refused?
  {
    hide Conserved, WireOk, SignalOk, AcksOk;
    if c.version == 2 {
      AckedIsBehind(c, l);
      MeasureKeepsWindow(c, l);
    }
  }

  lemma WriterIsNotRefused(c: Config, l: Link, a: Act)
    requires Enabled(c, l, a) && WriterStep(a) && !a.Measure?
    ensures !ApplyWriter(c, l, a).writer.Refused?
  {
    hide AfterSend, AfterOpenWindow, AfterCut, Outgoing, U32;
  }

  lemma OthersAreNotRefused(c: Config, l: Link, a: Act)
    requires Enabled(c, l, a) && !a.Measure? && !l.writer.Refused?
    ensures !Apply(c, l, a).writer.Refused?
  {
    hide ApplyWriter, ApplyUpdater, ApplyAcceptor, Enabled, WriterStep, UpdaterStep;
    if WriterStep(a) {
      WriterIsNotRefused(c, l, a);
    }
  }

  lemma NeverRefused(c: Config, l: Link, a: Act)
    requires Inv(c, l) && Enabled(c, l, a)
    ensures !Apply(c, l, a).writer.Refused?
  {
    if a.Measure? {
      hide Inv, AfterMeasure;
      MeasureIsNotRefused(c, l);
    } else {
      assert !l.writer.Refused? by {
        hide Conserved, UpdatesOk, WindowOk, SignalOk, AcksOk;
      }
      hide *;
      OthersAreNotRefused(c, l, a);
    }
  }

  lemma InvKept(c: Config, l: Link, a: Act)
    requires Inv(c, l) && Enabled(c, l, a)
    ensures Inv(c, Apply(c, l, a))
  {
    NeverRefused(c, l, a);
    hide Conserved, WireOk, ReaderTold, UpdatesOk, WindowOk, SignalOk, AcksOk, Apply, Enabled;
    ConservedKept(c, l, a);
    WireOkKept(c, l, a);
    ReaderToldKept(c, l, a);
    if c.version == 2 {
      UpdatesOkKept(c, l, a);
      WindowOkKept(c, l, a);
      SignalOkKept(c, l, a);
      AcksOkKept(c, l, a);
    }
  }

  lemma StartOk(c: Config)
    requires ConfigOk(c)
    ensures Inv(c, START)
  {}

  // ---------- What holds in every run ----------

  ghost predicate RunsFrom(c: Config, l: Link, acts: seq<Act>)
    decreases |acts|
  {
    acts == [] || (Enabled(c, l, acts[0]) && RunsFrom(c, Apply(c, l, acts[0]), acts[1..]))
  }

  ghost function After(c: Config, l: Link, acts: seq<Act>): Link
    requires RunsFrom(c, l, acts)
    decreases |acts|
  {
    if acts == [] then l else After(c, Apply(c, l, acts[0]), acts[1..])
  }

  ghost predicate Reachable(c: Config, l: Link) {
    exists acts :: RunsFrom(c, START, acts) && After(c, START, acts) == l
  }

  lemma {:induction false} RunKeepsInv(c: Config, l: Link, acts: seq<Act>)
    requires Inv(c, l) && RunsFrom(c, l, acts)
    ensures Inv(c, After(c, l, acts))
    decreases |acts|
  {
    if acts != [] {
      InvKept(c, l, acts[0]);
      RunKeepsInv(c, Apply(c, l, acts[0]), acts[1..]);
    }
  }

  lemma ReachableInv(c: Config, l: Link)
    requires ConfigOk(c) && Reachable(c, l)
    ensures Inv(c, l)
  {
    StartOk(c);
    var acts :| RunsFrom(c, START, acts) && After(c, START, acts) == l;
    RunKeepsInv(c, START, acts);
  }

  /** One more step of a run. */
  lemma {:induction false} RunSnoc(c: Config, l: Link, acts: seq<Act>, a: Act)
    requires RunsFrom(c, l, acts) && Enabled(c, After(c, l, acts), a)
    ensures RunsFrom(c, l, acts + [a]) && After(c, l, acts + [a]) == Apply(c, After(c, l, acts), a)
    decreases |acts|
  {
    hide Enabled, Apply;
    if acts != [] {
      RunSnoc(c, Apply(c, l, acts[0]), acts[1..], a);
      assert (acts + [a])[1..] == acts[1..] + [a];
    } else {
      assert acts + [a] == [a] && [a][1..] == [];
    }
  }

  lemma Step(c: Config, l: Link, a: Act) returns (m: Link)
    requires Reachable(c, l) && Enabled(c, l, a)
    ensures m == Apply(c, l, a) && Reachable(c, m)
  {
    var acts :| RunsFrom(c, START, acts) && After(c, START, acts) == l;
    RunSnoc(c, START, acts, a);
    m := Apply(c, l, a);
  }

  lemma InOrder(l: Link)
    requires Conserved(l)
    ensures l.written == l.taken + Flat(l.buffers) + DataOf(l.wire) + Pending(l.writer) + Uncut(l.writer)
  {
    hide Flat, DataOf, Pending, Uncut;
    Regroup(l.taken, Flat(l.buffers), DataOf(l.wire) + (Pending(l.writer) + Uncut(l.writer)));
    Regroup(l.taken + Flat(l.buffers), DataOf(l.wire), Pending(l.writer) + Uncut(l.writer));
  }

  /** End to end: the bytes passed to Write are, in order, those read, those buffered at the receiver, those on the
      wire, those pending, and those not yet cut into frames. */
  lemma EndToEnd(c: Config, l: Link)
    requires ConfigOk(c) && Reachable(c, l)
    ensures l.written == l.taken + Flat(l.buffers) + DataOf(l.wire) + Pending(l.writer) + Uncut(l.writer)
  {
    ReachableInv(c, l);
    InOrder(l);
  }

  /** io.EOF is returned only after every byte written, and a reader that finds the FIN gets it exactly then. */
  lemma EofMeansComplete(c: Config, l: Link)
    requires ConfigOk(c) && Reachable(c, l)
    ensures l.reader.AtEof? ==> l.taken == l.written
    ensures Enabled(c, l, WakeByFin) ==> (Apply(c, l, WakeByFin).reader.AtEof? <==> l.taken == l.written)
  {
    ReachableInv(c, l);
    SentIsSomewhere(l);
    assert l.buffers != [] ==> |l.buffers[0]| > 0;
    hide UpdatesOk, WindowOk, SignalOk, AcksOk;
    if l.fin && l.buffers == [] {
      assert l.taken + [] == l.taken;
    }
  }

  /** The bytes sent and not known to be consumed stay within the window, and so do the receiver's buffers. */
  lemma WindowSafety(c: Config, l: Link)
    requires ConfigOk(c) && c.version == 2 && Reachable(c, l)
    ensures l.acked <= |l.taken| <= Sent(l)
    ensures Sent(l) - l.acked <= MaxWindow(c)
    ensures |Flat(l.buffers)| + |DataOf(l.wire)| + |Pending(l.writer)| <= MaxWindow(c)
  {
    ReachableInv(c, l);
    AckedIsBehind(c, l);
    SentIsSomewhere(l);
    hide HonestUpdates;
  }

  /** The 32-bit window arithmetic gives the true numbers, however often the counters have wrapped, and so the
      peer is never accused of consuming more than was sent. */
  lemma WindowArithmeticIsExact(c: Config, l: Link)
    requires ConfigOk(c) && c.version == 2 && Reachable(c, l)
    ensures !l.writer.Refused?
    ensures l.writer.Top? ==> I32(l.numWritten - l.peerConsumed) == Sent(l) - l.acked >= 0
    ensures l.writer.Measured? ==>
      I32(I32(l.peerWindow) - l.writer.inflight) == l.peerWindow - l.writer.inflight
  {
    ReachableInv(c, l);
    AckedIsBehind(c, l);
    WrappedDifference(Sent(l), l.acked);
    if l.writer.Measured? {
      SmallI32(l.peerWindow);
      SmallI32(l.peerWindow - l.writer.inflight);
    }
    hide HonestUpdates, U32, I32;
  }

  /** Nothing is under way: all that was sent is read, and all reports have arrived. */
  predicate Drained(l: Link) {
    && l.wire == [] && !l.writer.Queued? && l.buffers == []
    && l.back == [] && l.updater.NoUpdate? && !l.reader.Acking? && !l.reader.AckQueued?
  }

  /** Half a receive buffer and one frame fit into the receive buffer. */
  predicate Roomy(c: Config) {
    Slack(c) + c.frameSize < c.streamBuf
  }

  /** When everything is drained the window is open and the writer is not left waiting. */
  lemma DrainedMeansOpen(c: Config, l: Link)
    requires ConfigOk(c) && c.version == 2 && Reachable(c, l) && Drained(l) && !l.writer.Closed?
    requires Roomy(c) || !AtWrap(l)
    ensures Sent(l) == |l.taken| && Sent(l) - l.acked == Unreported(l)
    ensures !AtWrap(l) ==> Unreported(l) == l.incr <= Slack(c)
    ensures l.peerWindow - (Sent(l) - l.acked) >= 1
    ensures l.writer.Blocked? ==> l.chUpdate
  {
    ReachableInv(c, l);
    AckedIsBehind(c, l);
    SentIsSomewhere(l);
    hide HonestUpdates, U32, Conserved, WireOk;
  }

  /** No lost wake-up: a writer that waits while its window is open has a signal to receive, or recvLoop is
      about to send one. */
  lemma NoLostUpdateSignal(c: Config, l: Link)
    requires ConfigOk(c) && c.version == 2 && Reachable(c, l)
    requires l.writer.Blocked? && l.acked + l.peerWindow > Sent(l)
    ensures l.chUpdate || Committed(l)
  {
    ReachableInv(c, l);
  }
}
