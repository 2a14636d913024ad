/** What the room condition of the window is worth on one stream whose recvLoops are never held back: with it a waiting
    writer always gets on, and without it some run leaves a writer waiting for ever. The token buckets, and the streams
    that share the connection, are added in GatedProgress and GatedDeadlock. */
module Deadlock {
  import opened Arith
  import opened Wire
  import opened StreamLink

  /** Nothing is under way, every byte is reported, and t bytes have been carried. */
  ghost predicate Quiet(c: Config, l: Link, t: nat) {
    && l.writer == Idle && l.recorded && l.updater == NoUpdate && l.wire == [] && l.back == []
    && l.registered && l.buffers == [] && l.incr == 0 && l.reader == Ready
    && |l.taken| == t == |l.written| && l.acked == t
    && (t > 0 ==> l.peerWindow == c.streamBuf) && (t == 0 ==> l.peerWindow == INITIAL_PEER_WINDOW)
  }

  // ---------- Calm runs ----------

  /** In a calm run a frame is handled only when the stream has no unread bytes: every token is then back. */
  predicate Calm(l: Link, a: Act) {
    a.Receive? ==> l.buffers == []
  }

  ghost predicate CalmRun(c: Config, l: Link, acts: seq<Act>)
    requires RunsFrom(c, l, acts)
    decreases |acts|
  {
    acts == [] || (Calm(l, acts[0]) && CalmRun(c, Apply(c, l, acts[0]), acts[1..]))
  }

  ghost predicate Calmly(c: Config, l: Link) {
    exists acts :: RunsFrom(c, START, acts) && CalmRun(c, START, acts) && After(c, START, acts) == l
  }

  lemma {:induction false} CalmSnoc(c: Config, l: Link, acts: seq<Act>, a: Act)
    requires RunsFrom(c, l, acts) && CalmRun(c, l, acts)
    requires Enabled(c, After(c, l, acts), a) && Calm(After(c, l, acts), a)
    ensures RunsFrom(c, l, acts + [a]) && CalmRun(c, l, acts + [a])
    decreases |acts|
  {
    hide Enabled, Apply, Calm;
    RunSnoc(c, l, acts, a);
    if acts != [] {
      CalmSnoc(c, Apply(c, l, acts[0]), acts[1..], a);
      assert (acts + [a])[1..] == acts[1..] + [a];
    } else {
      assert acts + [a] == [a] && [a][1..] == [];
    }
  }

  lemma CalmStep(c: Config, l: Link, a: Act) returns (m: Link)
    requires Calmly(c, l) && Enabled(c, l, a) && Calm(l, a)
    ensures m == Apply(c, l, a) && Calmly(c, m)
  {
    var acts :| RunsFrom(c, START, acts) && CalmRun(c, START, acts) && After(c, START, acts) == l;
    CalmSnoc(c, START, acts, a);
    RunSnoc(c, START, acts, a);
    m := Apply(c, l, a);
    hide Enabled, Apply;
  }

  lemma CalmlyInv(c: Config, l: Link)
    requires ConfigOk(c) && Calmly(c, l)
    ensures Reachable(c, l) && Inv(c, l)
  {
    ReachableInv(c, l);
  }

  lemma StartsCalmly(c: Config)
    ensures Calmly(c, START)
  {
    assert RunsFrom(c, START, []) && CalmRun(c, START, []) && After(c, START, []) == START;
  }

  // ---------- The pieces of such a run ----------

  lemma OpenStream(c: Config) returns (l: Link)
    requires ConfigOk(c) && c.version == 2
    ensures Calmly(c, l) && Quiet(c, l, 0)
  {
    StartsCalmly(c);
    l := CalmStep(c, START, SendForward);
    l := CalmStep(c, l, Record);
    l := CalmStep(c, l, Receive);
  }

  lemma StartWrite(c: Config, l: Link, b: seq<byte>) returns (m: Link)
    requires ConfigOk(c) && c.version == 2 && Calmly(c, l) && l.writer == Idle && 0 < |b| < TWO_31
    ensures Calmly(c, m) && Sent(m) == Sent(l)
    ensures m == l.(writer := Measured(b, Sent(l) - l.acked), written := l.written + b)
  {
    m := CalmStep(c, l, CallWrite(b));
    m := MeasureStep(c, m);
  }

  lemma MeasureStep(c: Config, l: Link) returns (m: Link)
    requires ConfigOk(c) && c.version == 2 && Calmly(c, l) && l.writer.Top? && l.writer.b != []
    ensures Calmly(c, m) && m == l.(writer := Measured(l.writer.b, Sent(l) - l.acked)) && Sent(m) == Sent(l)
  {
    CalmlyInv(c, l);
    AckedIsBehind(c, l);
    MeasureKeepsWindow(c, l);
    hide AfterMeasure, UpdatesOk, WindowOk, WireOk, Conserved, SignalOk, AcksOk;
    m := CalmStep(c, l, Measure);
  }

  lemma OpenStep(c: Config, l: Link) returns (m: Link)
    requires ConfigOk(c) && c.version == 2 && Calmly(c, l) && l.writer.Measured?
    requires |l.writer.b| <= l.peerWindow - l.writer.inflight
    ensures Calmly(c, m) && m == l.(writer := Cutting(l.writer.b, []))
  {
    CalmlyInv(c, l);
    assert l.writer.b != [] && |l.writer.b| < TWO_31;
    OpenWindowSplits(c, l.writer.b, l.writer.inflight, l.peerWindow);
    UncutAfterOpenWindow(l.writer.b, l.writer.inflight, l.peerWindow);
    hide AfterOpenWindow, UpdatesOk, WindowOk, WireOk, Conserved, SignalOk, AcksOk;
    m := CalmStep(c, l, OpenWindow);
    assert m.writer.bts + m.writer.more == l.writer.b && m.writer.more == [];
    assert m.writer.bts + [] == m.writer.bts;
  }

  lemma SendWhole(c: Config, l: Link) returns (m: Link)
    requires Calmly(c, l) && l.writer.Cutting? && 0 < |l.writer.bts| <= c.frameSize && l.writer.more == []
    ensures Calmly(c, m)
    ensures m == l.(writer := Idle, wire := l.wire + [Psh(l.writer.bts)], numWritten := m.numWritten)
  {
    var b := l.writer.bts;
    m := CalmStep(c, l, Cut);
    assert b[..|b|] == b && b[|b|..] == [];
    assert m == l.(writer := Queued(b, [], []));
    m := CalmStep(c, m, SendForward);
    m := CalmStep(c, m, Count);
    m := CalmStep(c, m, Cut);
  }

  /** One frame is written while the window has room for it. */
  lemma WriteFrame(c: Config, l: Link, b: seq<byte>) returns (m: Link)
    requires ConfigOk(c) && c.version == 2 && Calmly(c, l) && l.writer == Idle
    requires 0 < |b| <= c.frameSize && |b| <= l.peerWindow - (Sent(l) - l.acked)
    ensures Calmly(c, m)
    ensures m == l.(wire := l.wire + [Psh(b)], written := l.written + b, numWritten := m.numWritten)
  {
    m := StartWrite(c, l, b);
    m := OpenStep(c, m);
    m := SendWhole(c, m);
  }

  /** A frame that is alone on its way is read at once. */
  lemma ReadFrame(c: Config, l: Link, b: seq<byte>) returns (m: Link)
    requires c.version == 2 && Calmly(c, l) && l.wire == [Psh(b)] && b != [] && l.registered && l.buffers == []
    requires l.reader == Ready
    ensures Calmly(c, m) && |m.taken| == |l.taken| + |b|
    ensures m == l.(wire := [], buffers := [], readEvent := true, taken := l.taken + b,
      numRead := U32(l.numRead + |b|),
      incr := if AckDue(c, l, |b|) then 0 else U32(l.incr + |b|),
      reader := if AckDue(c, l, |b|) && U32(l.numRead + |b|) > 0 then Acking(U32(l.numRead + |b|)) else Ready)
  {
    hide U32;
    m := CalmStep(c, l, Receive);
    assert m == l.(wire := [], buffers := [b], readEvent := true);
    m := CalmStep(c, m, TryRead(|b|));
    assert b[..|b|] == b;
  }

  /** A report travels back and is stored. */
  lemma Report(c: Config, l: Link) returns (m: Link)
    requires Calmly(c, l) && l.reader.Acking? && l.back == [] && l.updater == NoUpdate && l.recorded
    ensures Calmly(c, m)
    ensures m == l.(reader := Ready, peerConsumed := l.reader.consumed, peerWindow := c.streamBuf, acked := |l.taken|,
                    chUpdate := true)
  {
    hide Calmly, Enabled, Apply;
    m := SendReport(c, l);
    m := StoreReport(c, m);
  }

  lemma StoreReport(c: Config, l: Link) returns (m: Link)
    requires Calmly(c, l) && l.updater == NoUpdate && l.recorded && |l.back| == 1 && l.back[0].Upd?
    ensures Calmly(c, m)
    ensures m == l.(back := [], peerConsumed := l.back[0].consumed, peerWindow := l.back[0].window,
                    acked := l.back[0].total, chUpdate := true)
  {
    hide Calmly, Apply, WriterStep;
    m := UpdaterMoves(c, l, ParseUpdate);
    assert m.back == [];
    m := StoreParsed(c, m);
  }

  lemma StoreParsed(c: Config, l: Link) returns (m: Link)
    requires Calmly(c, l) && l.updater.Parsed?
    ensures Calmly(c, m)
    ensures m == l.(updater := NoUpdate, peerConsumed := l.updater.consumed, peerWindow := l.updater.window,
                    acked := l.updater.total, chUpdate := true)
  {
    hide Calmly, Apply, WriterStep, AfterParse;
    m := UpdaterMoves(c, l, StoreConsumed);
    m := UpdaterMoves(c, m, StoreWindow);
    m := UpdaterMoves(c, m, Signal);
  }

  lemma UpdaterMoves(c: Config, l: Link, a: Act) returns (m: Link)
    requires Calmly(c, l) && Enabled(c, l, a) && UpdaterStep(a)
    ensures Calmly(c, m) && m == ApplyUpdater(c, l, a)
  {
    hide Calmly, Enabled, Apply, ApplyUpdater;
    ByUpdater(c, l, a);
    m := CalmStep(c, l, a);
  }

  lemma SendReport(c: Config, l: Link) returns (m: Link)
    requires Calmly(c, l) && l.reader.Acking? && l.back == []
    ensures Calmly(c, m)
    ensures m == l.(reader := Ready, back := [Upd(l.reader.consumed, c.streamBuf, |l.taken|)])
  {
    hide Calmly;
    m := CalmStep(c, l, Ack);
    m := CalmStep(c, m, SendBack);
    assert m.back == [Upd(l.reader.consumed, c.streamBuf, |l.taken|)];
  }

  /** A write that is read and reported at once. */
  lemma Carry(c: Config, l: Link, t: nat, n: nat) returns (m: Link)
    requires ConfigOk(c) && c.version == 2 && Calmly(c, l) && Quiet(c, l, t)
    requires 0 < n <= c.frameSize && n <= l.peerWindow && t + n < TWO_32 && (t == 0 || n >= c.streamBuf / 2)
    ensures Calmly(c, m) && Quiet(c, m, t + n)
  {
    CalmlyInv(c, l);
    assert l.numRead == U32(t);
    var b: seq<byte> := seq(n, _ => 0);
    m := WriteFrame(c, l, b);
    assert m.wire == [Psh(b)];
    SmallU32(t);
    SmallU32(t + n);
    SmallU32(n);
    hide U32;
    assert AckDue(c, m, n);
    m := ReadFrame(c, m, b);
    m := Report(c, m);
  }

  /** Frames of n bytes, each reported, carry any multiple of n. */
  lemma {:induction false} CarryMany(c: Config, l: Link, t: nat, n: nat, times: nat) returns (m: Link)
    requires ConfigOk(c) && c.version == 2 && Calmly(c, l) && Quiet(c, l, t) && t > 0
    requires 0 < n <= c.frameSize && c.streamBuf / 2 <= n <= c.streamBuf && t + n * times < TWO_32
    ensures Calmly(c, m) && Quiet(c, m, t + n * times)
    decreases times
  {
    if times == 0 {
      m := l;
    } else {
      assert n * times == n + n * (times - 1);
      m := Carry(c, l, t, n);
      m := CarryMany(c, m, t + n, n, times - 1);
    }
  }

  /** Everything has arrived and is reported, the window is closed, and the writer waits for an update. */
  ghost predicate Stuck(l: Link) {
    Drained(l) && l.writer.Blocked? && !l.chUpdate && l.acked + l.peerWindow <= Sent(l)
  }

  // ---------- A stuck writer stays stuck ----------

  /** Whatever happens in a stuck state, calls of Read included, leaves it stuck, with the writer as it was. */
  lemma StuckStays(c: Config, l: Link, a: Act)
    requires Inv(c, l) && Stuck(l) && Enabled(c, l, a)
    ensures Stuck(Apply(c, l, a)) && Apply(c, l, a).writer == l.writer && Sent(Apply(c, l, a)) == Sent(l)
  {
    assert !l.fin && !l.reader.AtEof? by {
      hide Conserved, UpdatesOk, WindowOk, SignalOk, AcksOk;
    }
    hide Inv, AckDue, AfterMeasure, AfterOpenWindow, AfterCut, AfterReceive, AfterParse, AfterSend, Outgoing;
  }

  lemma {:induction false} StuckForEver(c: Config, l: Link, acts: seq<Act>)
    requires Inv(c, l) && Stuck(l) && RunsFrom(c, l, acts)
    ensures var m := After(c, l, acts); Stuck(m) && m.writer == l.writer && Sent(m) == Sent(l)
    decreases |acts|
  {
    hide Inv, Stuck, Enabled, Apply;
    if acts != [] {
      StuckStays(c, l, acts[0]);
      InvKept(c, l, acts[0]);
      StuckForEver(c, Apply(c, l, acts[0]), acts[1..]);
    }
  }

  // ---------- With room, a waiting writer always gets on ----------

  /** The steps that the two endpoints take without a new call of Write or Close. */
  predicate Own(a: Act) {
    !a.CallWrite? && !a.CallClose?
  }

  /** The writer has bytes that it has not cut yet and is on its way round the loop of writeV2. */
  predicate Waits(w: Writer) {
    && (w.Top? || w.Measured? || w.Cutting? || w.Blocked?)
    && (w.Cutting? && w.bts == [] ==> w.more != [])
    && (w.Top? || w.Measured? ==> w.b != [])
    && (w.Blocked? ==> w.more != [])
  }

  function WriterWork(w: Writer): nat {
    if w.Top? then 3 else if w.Measured? then 2 else if w.Cutting? then 1 else 0
  }

  function UpdaterWork(u: Updater): nat {
    match u
    case NoUpdate => 0
    case Parsed(_, _, _) => 7
    case StoredConsumed(_) => 6
    case StoredWindow => 5
  }

  function ReaderWork(r: Reader): nat {
    match r
    case Ready => 1
    case Acking(_) => 11
    case AckQueued(_) => 10
    case Empty => 0
    case AtEof => 0
  }

  /** What is left to do before the endpoints come to rest, if the writer sends nothing meanwhile: each of their steps
      takes some of it away. */
  function Work(l: Link): nat {
    12 * |Flat(l.buffers)| + 12 * |DataOf(l.wire)| + 3 * |l.wire| + 8 * |l.back|
    + WriterWork(l.writer) + UpdaterWork(l.updater) + ReaderWork(l.reader)
    + (if l.chUpdate then 4 else 0) + (if l.readEvent then 2 else 0)
  }

  /** Either a step sends a byte, or it takes some of the work away and leaves the writer waiting. */
  ghost predicate GetsOn(l: Link, m: Link) {
    Sent(m) > Sent(l) || (Sent(m) == Sent(l) && Waits(m.writer) && Work(m) < Work(l))
  }

  lemma ReadGetsOn(c: Config, l: Link, max: nat)
    requires c.version == 2 && Enabled(c, l, TryRead(max)) && Waits(l.writer)
    requires l.buffers != [] ==> |l.buffers[0]| > 0
    ensures GetsOn(l, AfterTryRead(c, l, max))
  {
    hide AckDue, DataOf;
    var m := AfterTryRead(c, l, max);
    assert Sent(m) == Sent(l);
    if l.buffers != [] && ReadCount(l, max) < |l.buffers[0]| {
      assert m.buffers[1..] == l.buffers[1..];
    }
    assert |Flat(m.buffers)| == |Flat(l.buffers)| - ReadCount(l, max);
  }

  lemma ReceiveGetsOn(c: Config, l: Link)
    requires l.wire != [] && Waits(l.writer) && !l.wire[0].Fin?
    ensures GetsOn(l, AfterReceive(l))
  {
    var m := AfterReceive(l);
    assert |DataOf(l.wire)| == |DataOf(m.wire)| + if l.wire[0].Psh? then |l.wire[0].data| else 0;
    if l.wire[0].Psh? {
      FlatConcat(l.buffers, l.wire[0].data);
    }
    hide Flat, DataOf, Uncut, Waits;
    assert |Flat(m.buffers)| <= |Flat(l.buffers)| + if l.wire[0].Psh? then |l.wire[0].data| else 0;
  }

  lemma AcceptorGetsOn(c: Config, l: Link, a: Act)
    requires Inv(c, l) && c.version == 2 && Enabled(c, l, a) && !WriterStep(a) && !UpdaterStep(a) && Waits(l.writer)
    ensures GetsOn(l, ApplyAcceptor(c, l, a))
  {
    assert !l.reader.AtEof? && (l.buffers != [] ==> |l.buffers[0]| > 0) && (l.wire != [] ==> !l.wire[0].Fin?) by {
      hide Conserved, UpdatesOk, WindowOk, SignalOk, AcksOk;
    }
    assert !l.fin by {
      hide Conserved, UpdatesOk, WindowOk, SignalOk, AcksOk;
    }
    hide Inv, AfterTryRead, AfterReceive, Flat, DataOf, GetsOn;
    if a.TryRead? {
      ReadGetsOn(c, l, a.max);
    } else if a.Receive? {
      ReceiveGetsOn(c, l);
    } else {
      SmallStepGetsOn(c, l, a);
    }
  }

  lemma SmallStepGetsOn(c: Config, l: Link, a: Act)
    requires Enabled(c, l, a) && (a.Ack? || a.SendBack? || a.WakeByEvent?) && Waits(l.writer)
    ensures GetsOn(l, ApplyAcceptor(c, l, a))
  {
    hide Flat, DataOf;
  }

  lemma UpdaterGetsOn(c: Config, l: Link, a: Act)
    requires Enabled(c, l, a) && UpdaterStep(a) && Waits(l.writer)
    ensures GetsOn(l, ApplyUpdater(c, l, a))
  {
    hide Flat, DataOf;
  }

  lemma MeasureGetsOn(c: Config, l: Link)
    requires Inv(c, l) && c.version == 2 && l.writer.Top? && Waits(l.writer)
    ensures GetsOn(l, l.(writer := AfterMeasure(c, l)))
  {
    MeasureIsNotRefused(c, l);
    hide Inv, Flat, DataOf, Inflight;
  }

  lemma OpenWindowGetsOn(l: Link)
    requires l.writer.Measured? && Waits(l.writer)
    ensures GetsOn(l, l.(writer := AfterOpenWindow(l.writer.b, l.writer.inflight, l.peerWindow)))
  {
    hide Flat, DataOf, AfterOpenWindow;
    UncutAfterOpenWindow(l.writer.b, l.writer.inflight, l.peerWindow);
  }

  lemma CutGetsOn(c: Config, l: Link)
    requires c.frameSize > 0 && l.writer.Cutting? && Waits(l.writer)
    ensures GetsOn(l, l.(writer := AfterCut(c.frameSize, l.writer.bts, l.writer.more)))
  {
    hide Flat, DataOf;
  }

  lemma WriterGetsOn(c: Config, l: Link, a: Act)
    requires Inv(c, l) && c.version == 2 && Enabled(c, l, a) && WriterStep(a) && Own(a) && Waits(l.writer)
    ensures GetsOn(l, ApplyWriter(c, l, a))
  {
    hide Flat, DataOf, AfterMeasure, AfterOpenWindow, AfterCut;
    hide Conserved, WireOk, UpdatesOk, WindowOk, SignalOk, AcksOk;
    if a.Measure? {
      MeasureGetsOn(c, l);
    } else if a.OpenWindow? {
      OpenWindowGetsOn(l);
    } else if a.Cut? {
      CutGetsOn(c, l);
    }
  }

  /** Every step that the endpoints take in a reachable state with a waiting writer gets on. */
  lemma OwnStepGetsOn(c: Config, l: Link, a: Act)
    requires Inv(c, l) && c.version == 2 && Enabled(c, l, a) && Own(a) && Waits(l.writer)
    ensures GetsOn(l, Apply(c, l, a))
  {
    hide Inv, GetsOn, Enabled, Waits, WriterStep, UpdaterStep, ApplyWriter, ApplyUpdater, ApplyAcceptor;
    if WriterStep(a) {
      WriterGetsOn(c, l, a);
    } else if UpdaterStep(a) {
      UpdaterGetsOn(c, l, a);
    } else {
      AcceptorGetsOn(c, l, a);
    }
  }

  /** The steps of the protocol proper: reading counts only when there is data. */
  predicate Protocol(l: Link, a: Act) {
    a.TakeUpdate? || a.Receive? || a.Ack? || a.SendBack? || a.ParseUpdate? || a.StoreConsumed? || a.StoreWindow?
    || a.Signal? || ((a.TryRead? || a.WakeByEvent?) && l.buffers != [])
  }

  lemma BlockedFacts(c: Config, l: Link)
    requires ConfigOk(c) && Reachable(c, l) && l.writer.Blocked?
    ensures ReaderTold(l) && (l.buffers != [] ==> l.registered) && !l.reader.AtEof?
  {
    ReachableInv(c, l);
    hide Conserved, UpdatesOk, WindowOk, SignalOk, AcksOk;
  }

  /** With room, a blocked writer is never left with nothing under way, and not only when all is drained. */
  lemma BlockedCanStep(c: Config, l: Link) returns (a: Act)
    requires ConfigOk(c) && c.version == 2 && Reachable(c, l) && l.writer.Blocked? && Roomy(c)
    ensures Enabled(c, l, a) && Protocol(l, a)
  {
    hide Reachable, Sent, AtWrap, Unreported, Roomy;
    BlockedFacts(c, l);
    if l.wire != [] {
      a := Receive;
    } else if l.reader.Acking? {
      a := Ack;
    } else if l.reader.AckQueued? {
      a := SendBack;
    } else if l.buffers != [] {
      a := if l.reader.Ready? then TryRead(1) else WakeByEvent;
    } else if l.updater.Parsed? {
      a := StoreConsumed;
    } else if l.updater.StoredConsumed? {
      a := StoreWindow;
    } else if l.updater.StoredWindow? {
      a := Signal;
    } else if l.back != [] {
      a := ParseUpdate;
    } else {
      DrainedMeansOpen(c, l);
      a := TakeUpdate;
    }
  }

  lemma WaitingCanStep(c: Config, l: Link) returns (a: Act)
    requires ConfigOk(c) && c.version == 2 && Reachable(c, l) && Waits(l.writer) && Roomy(c)
    ensures Enabled(c, l, a) && Own(a)
  {
    if l.writer.Blocked? {
      a := BlockedCanStep(c, l);
    } else {
      a := if l.writer.Top? then Measure else if l.writer.Measured? then OpenWindow else Cut;
    }
  }

  ghost predicate AllOwn(acts: seq<Act>) {
    forall a <- acts :: Own(a)
  }

  lemma {:induction false} SentNeverFalls(c: Config, l: Link, acts: seq<Act>)
    requires Inv(c, l) && c.version == 2 && RunsFrom(c, l, acts)
    ensures Sent(After(c, l, acts)) >= Sent(l)
    decreases |acts|
  {
    hide Inv, Enabled, Apply, Sent;
    if acts != [] {
      SentKept(c, l, acts[0]);
      InvKept(c, l, acts[0]);
      SentNeverFalls(c, Apply(c, l, acts[0]), acts[1..]);
    }
  }

  lemma WriterKeepsSent(c: Config, l: Link, a: Act)
    requires Inv(c, l) && c.version == 2 && Enabled(c, l, a) && WriterStep(a)
    ensures Sent(ApplyWriter(c, l, a)) >= Sent(l)
  {
    hide Inv, AfterOpenWindow, AfterMeasure, AfterCut, AfterSend, Outgoing, U32;
    if a.Measure? {
      MeasureIsNotRefused(c, l);
      UncutAfterMeasure(c, l);
    } else if a.OpenWindow? {
      UncutAfterOpenWindow(l.writer.b, l.writer.inflight, l.peerWindow);
    } else if a.Cut? {
      UncutAfterCut(c.frameSize, l.writer.bts, l.writer.more);
    } else if a.SendForward? {
      UncutAfterSend(l.writer);
    }
  }

  lemma UncutAfterSend(w: Writer)
    requires w.SynQueued? || w.Queued? || w.FinQueued?
    ensures Uncut(AfterSend(w)) == Uncut(w)
  {}

  lemma SentKept(c: Config, l: Link, a: Act)
    requires Inv(c, l) && c.version == 2 && Enabled(c, l, a)
    ensures Sent(Apply(c, l, a)) >= Sent(l)
  {
    hide Inv, Enabled, WriterStep, ApplyWriter, ApplyUpdater, ApplyAcceptor;
    if WriterStep(a) {
      WriterKeepsSent(c, l, a);
    } else {
      OthersLeaveWriter(c, l, a);
    }
  }

  /** From a waiting writer the endpoints cannot take more than Work(l) steps of their own without sending a byte, in
      whatever order they take them; and with room they do not stop before. */
  lemma {:induction false} MustSend(c: Config, l: Link, acts: seq<Act>)
    requires ConfigOk(c) && c.version == 2 && Reachable(c, l) && Waits(l.writer) && AllOwn(acts) && RunsFrom(c, l, acts)
    requires Sent(After(c, l, acts)) == Sent(l)
    ensures |acts| <= Work(l)
    ensures Roomy(c) ==> exists a :: Own(a) && Enabled(c, After(c, l, acts), a)
    decreases |acts|
  {
    hide Inv, Enabled, Apply, Sent, Waits, Work, Own, Reachable;
    if acts == [] {
      if Roomy(c) {
        var a := WaitingCanStep(c, l);
      }
    } else {
      var m := Step(c, l, acts[0]);
      ReachableInv(c, l);
      ReachableInv(c, m);
      OwnStepGetsOn(c, l, acts[0]);
      SentNeverFalls(c, m, acts[1..]);
      assert forall a <- acts[1..] :: a in acts;
      MustSend(c, m, acts[1..]);
    }
  }

  /** Some run of the endpoints' own steps sends a byte. */
  ghost predicate CanSend(c: Config, l: Link) {
    exists acts :: AllOwn(acts) && RunsFrom(c, l, acts) && Sent(After(c, l, acts)) > Sent(l)
  }

  lemma {:induction false} GetsThrough(c: Config, l: Link) returns (acts: seq<Act>)
    requires ConfigOk(c) && c.version == 2 && Reachable(c, l) && Waits(l.writer) && Roomy(c)
    ensures AllOwn(acts) && RunsFrom(c, l, acts) && Sent(After(c, l, acts)) > Sent(l)
    decreases Work(l)
  {
    hide Inv, Enabled, Apply, Sent, Waits, Work, Own, Reachable;
    var a := WaitingCanStep(c, l);
    var m := Step(c, l, a);
    ReachableInv(c, l);
    OwnStepGetsOn(c, l, a);
    var rest: seq<Act> := [];
    if Sent(m) == Sent(l) {
      rest := GetsThrough(c, m);
    }
    acts := [a] + rest;
    assert acts[1..] == rest;
  }

  // ---------- Building the run without room ----------

  /** Blocked for good: the writer reads a window that is closed, whatever signals are left over. */
  lemma BlockOnClosedWindow(c: Config, l: Link) returns (m: Link)
    requires ConfigOk(c) && c.version == 2 && Calmly(c, l) && l.writer == Idle && l.acked + l.peerWindow <= Sent(l)
    ensures Calmly(c, m) && m.writer.Blocked? && !m.chUpdate && Sent(m) == Sent(l)
    ensures m == l.(writer := m.writer, written := m.written, chUpdate := false)
  {
    m := StartWrite(c, l, [0]);
    m := CloseStep(c, m);
    if m.chUpdate {
      m := CalmStep(c, m, TakeUpdate);
      m := MeasureStep(c, m);
      m := CloseStep(c, m);
    }
  }

  lemma CloseStep(c: Config, l: Link) returns (m: Link)
    requires ConfigOk(c) && c.version == 2 && Calmly(c, l) && l.writer.Measured? && l.peerWindow <= l.writer.inflight
    ensures Calmly(c, m) && m == l.(writer := Blocked(l.writer.b)) && l.writer.b != [] && Sent(m) == Sent(l)
  {
    hide AfterOpenWindow, Calmly;
    WindowIsClosed(c, l);
    m := CalmStep(c, l, OpenWindow);
    m := CalmStep(c, m, Cut);
  }

  lemma WindowIsClosed(c: Config, l: Link)
    requires ConfigOk(c) && c.version == 2 && Calmly(c, l) && l.writer.Measured? && l.peerWindow <= l.writer.inflight
    ensures AfterOpenWindow(l.writer.b, l.writer.inflight, l.peerWindow) == Cutting([], l.writer.b) && l.writer.b != []
  {
    CalmlyInv(c, l);
    OpenWindowSplits(c, l.writer.b, l.writer.inflight, l.peerWindow);
    UncutAfterOpenWindow(l.writer.b, l.writer.inflight, l.peerWindow);
    hide AfterOpenWindow, UpdatesOk, WindowOk, WireOk, Conserved, SignalOk, AcksOk;
    var w := AfterOpenWindow(l.writer.b, l.writer.inflight, l.peerWindow);
    assert w.bts == [] && [] + w.more == w.more;
  }

  /** The bytes just short of a full receive buffer before the count wraps, none reported since half a buffer. */
  lemma GatherSlack(c: Config, l: Link, t: nat) returns (m: Link)
    requires ConfigOk(c) && c.version == 2 && Calmly(c, l) && Quiet(c, l, t)
    requires 0 < t == TWO_32 - c.streamBuf && Slack(c) <= c.frameSize
    ensures Calmly(c, m) && m.writer == Idle && m.reader == Ready && m.wire == [] && m.buffers == []
    ensures m.back == [] && m.updater == NoUpdate && m.recorded && m.registered
    ensures |m.taken| == t + Slack(c) == |m.written| && m.incr == Slack(c) && m.numRead == t + Slack(c)
    ensures m.acked == t && m.peerWindow == c.streamBuf
  {
    var s := Slack(c);
    CalmlyInv(c, l);
    SmallU32(t);
    SmallU32(t + s);
    SmallU32(s);
    hide U32;
    m := l;
    if s > 0 {
      var b: seq<byte> := seq(s, _ => 0);
      m := WriteFrame(c, m, b);
      assert m.wire == [Psh(b)];
      m := ReadFrame(c, m, b);
    }
  }

  lemma FullCount()
    ensures U32(TWO_32) == 0
  {}

  lemma FirstChunk(total: nat, k: nat) returns (first: nat)
    requires 0 < k && 0 < total
    ensures first == total - k * ((total - 1) / k) && 1 <= first <= k
  {
    assert total - 1 == k * ((total - 1) / k) + (total - 1) % k;
    first := total - k * ((total - 1) / k);
  }

  /** Without the room there is a run in which the writer waits for ever: the 2^32nd byte fills the window, its
      report would carry a count of zero, and so it is not sent. */
  lemma WithoutRoomTheWriterStarves(c: Config) returns (m: Link)
    requires ConfigOk(c) && c.version == 2 && !Roomy(c)
    ensures Calmly(c, m) && Reachable(c, m) && Stuck(m) && m.writer.Blocked?
    ensures forall acts :: RunsFrom(c, m, acts) ==>
      Stuck(After(c, m, acts)) && After(c, m, acts).writer == m.writer && Sent(After(c, m, acts)) == Sent(m)
  {
    hide Calmly, U32;
    var k := Max(1, c.streamBuf / 2);
    var total := TWO_32 - c.streamBuf;
    var times := (total - 1) / k;
    var first := FirstChunk(total, k);
    m := OpenStream(c);
    m := Carry(c, m, 0, first);
    m := CarryMany(c, m, first, k, times);
    m := GatherSlack(c, m, total);
    var b: seq<byte> := seq(c.streamBuf - Slack(c), _ => 0);
    m := WriteFrame(c, m, b);
    assert m.wire == [Psh(b)];
    SmallU32(c.streamBuf);
    FullCount();
    m := ReadFrame(c, m, b);
    assert m.reader == Ready && m.incr == 0;
    m := BlockOnClosedWindow(c, m);
    CalmlyInv(c, m);
    forall acts | RunsFrom(c, m, acts)
      ensures Stuck(After(c, m, acts)) && After(c, m, acts).writer == m.writer && Sent(After(c, m, acts)) == Sent(m)
    {
      StuckForEver(c, m, acts);
    }
  }

  /** Half a receive buffer and a frame fit into a receive buffer if and only if, in every run of version 2 in which no
      recvLoop is held back by its bucket, a writer that is blocked can still send: otherwise some run blocks it in a
      state that no step whatever leads out of. GatedDeadlock.NeverStuckIff gives the condition under the buckets. */
  lemma NeverStuckIff(c: Config)
    requires ConfigOk(c) && c.version == 2
    ensures Roomy(c) <==> forall l :: Reachable(c, l) && l.writer.Blocked? ==> CanSend(c, l)
  {
    hide Reachable, Sent, Stuck, AllOwn;
    if Roomy(c) {
      forall l | Reachable(c, l) && l.writer.Blocked?
        ensures CanSend(c, l)
      {
        BlockedWaits(c, l);
        var acts := GetsThrough(c, l);
      }
    } else {
      var m := WithoutRoomTheWriterStarves(c);
      assert !CanSend(c, m);
    }
  }

  lemma BlockedWaits(c: Config, l: Link)
    requires ConfigOk(c) && c.version == 2 && Reachable(c, l) && l.writer.Blocked?
    ensures Waits(l.writer)
  {
    ReachableInv(c, l);
    hide Conserved, WireOk, UpdatesOk, SignalOk, AcksOk;
  }
}
