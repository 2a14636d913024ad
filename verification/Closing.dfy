/** What becomes of a stream that its opener has closed: the FIN is never lost, and the acceptor's reader comes to
    io.EOF with every byte, on one stream by itself, among other streams, and under both token buckets. */
module Closing {
  import opened Arith
  import opened Wire
  import opened StreamLink
  import opened Mux
  import opened Gated
  import opened GatedProgress

  // ---------- The FIN is never lost ----------

  /** A FIN that was written has been handled by the acceptor, or it is the last frame on its way. */
  predicate FinArrives(l: Link) {
    FinGone(l.writer) ==> l.fin || (l.wire != [] && l.wire[|l.wire| - 1] == Fin)
  }

  lemma ReceiveKeepsFin(c: Config, l: Link)
    requires WireOk(c, l) && FinArrives(l) && l.wire != []
    ensures FinArrives(AfterReceive(l))
  {
    assert !l.registered ==> l.wire[0].Syn?;
  }

  lemma FinArrivesKept(c: Config, l: Link, a: Act)
    requires WireOk(c, l) && FinArrives(l) && Enabled(c, l, a)
    ensures FinArrives(Apply(c, l, a))
  {
    hide WireOk, FinArrives;
    if UpdaterStep(a) {
      ByUpdater(c, l, a);
      UpdaterKeepsFin(c, l, a);
    } else if WriterStep(a) {
      WriterKeepsFin(c, l, a);
    } else {
      ByAcceptor(c, l, a);
      AcceptorKeepsFin(c, l, a);
    }
    hide *;
  }

  lemma UpdaterKeepsFin(c: Config, l: Link, a: Act)
    requires FinArrives(l) && Enabled(c, l, a) && UpdaterStep(a)
    ensures FinArrives(ApplyUpdater(c, l, a))
  {
    hide ApplyUpdater, Enabled;
  }

  lemma WriterKeepsFin(c: Config, l: Link, a: Act)
    requires FinArrives(l) && Enabled(c, l, a) && WriterStep(a)
    ensures FinArrives(Apply(c, l, a))
  {
    hide AfterMeasure, AfterOpenWindow, AfterCut, U32, ApplyUpdater, ApplyAcceptor;
  }

  lemma AcceptorKeepsFin(c: Config, l: Link, a: Act)
    requires WireOk(c, l) && FinArrives(l) && Enabled(c, l, a) && !WriterStep(a) && !UpdaterStep(a)
    ensures FinArrives(ApplyAcceptor(c, l, a))
  {
    hide WireOk, FinArrives, AfterReceive;
    if a.Receive? {
      ReceiveKeepsFin(c, l);
    } else {
      OthersLeaveFin(c, l, a);
    }
  }

  lemma OthersLeaveFin(c: Config, l: Link, a: Act)
    requires FinArrives(l) && Enabled(c, l, a) && !WriterStep(a) && !UpdaterStep(a) && !a.Receive?
    ensures FinArrives(ApplyAcceptor(c, l, a))
  {
    hide AfterReceive, AfterTryRead;
  }

  lemma {:induction false} RunKeepsFin(c: Config, l: Link, acts: seq<Act>)
    requires Inv(c, l) && FinArrives(l) && RunsFrom(c, l, acts)
    ensures FinArrives(After(c, l, acts))
    decreases |acts|
  {
    hide Conserved, WireOk, ReaderTold, UpdatesOk, WindowOk, SignalOk, AcksOk, Enabled, Apply, FinArrives;
    if acts != [] {
      InvKept(c, l, acts[0]);
      FinArrivesKept(c, l, acts[0]);
      RunKeepsFin(c, Apply(c, l, acts[0]), acts[1..]);
    }
  }

  lemma FinIsNotLost(c: Config, l: Link)
    requires ConfigOk(c) && Reachable(c, l)
    ensures FinArrives(l) && Inv(c, l)
    ensures l.fin ==> l.wire == [] && FinGone(l.writer)
  {
    StartOk(c);
    var acts :| RunsFrom(c, START, acts) && After(c, START, acts) == l;
    RunKeepsInv(c, START, acts);
    RunKeepsFin(c, START, acts);
    hide Conserved, UpdatesOk, WindowOk, SignalOk, AcksOk;
  }

  // ---------- The reader comes to io.EOF ----------

  function ReaderLeft(l: Link): nat {
    match l.reader
    case Ready => 3
    case Acking(_) => 10
    case AckQueued(_) => 9
    case Empty => if l.buffers != [] then 4 else 1
    case AtEof => 0
  }

  /** How many steps a closed stream has left before its reader is at io.EOF and all else is done. */
  function Left(l: Link): nat {
    8 * |Flat(l.buffers)| + 8 * |DataOf(l.wire)| + 7 * |l.wire| + 5 * |l.back| + UpdaterToil(l.updater) + ReaderLeft(l)
    + (if l.readEvent then 3 else 0) + if l.writer.FinWritten? then 1 else 0
  }

  lemma ReadLeaves(c: Config, l: Link, max: nat)
    requires Enabled(c, l, TryRead(max)) && (l.buffers != [] ==> |l.buffers[0]| > 0)
    ensures Left(AfterTryRead(c, l, max)) < Left(l)
  {
    ReadTakesBytes(c, l, max);
    hide Flat, DataOf, AckDue, U32;
  }

  lemma ReceiveLeaves(l: Link)
    requires l.wire != [] && !l.reader.AtEof?
    ensures Left(AfterReceive(l)) < Left(l)
  {
    ReceivePutsBytes(l);
    var m := AfterReceive(l);
    assert |DataOf(l.wire)| == |DataOf(m.wire)| + if l.wire[0].Psh? then |l.wire[0].data| else 0;
    hide Flat, DataOf;
  }

  lemma UpdaterLeaves(c: Config, l: Link, a: Act)
    requires Enabled(c, l, a) && UpdaterStep(a)
    ensures Left(ApplyUpdater(c, l, a)) < Left(l) && ApplyUpdater(c, l, a).writer == l.writer
  {
    hide Flat, DataOf;
  }

  lemma SmallStepLeaves(c: Config, l: Link, a: Act)
    requires Enabled(c, l, a) && (a.Ack? || a.SendBack? || a.WakeByEvent? || a.WakeByFin?)
    ensures Left(ApplyAcceptor(c, l, a)) < Left(l)
  {
    hide Flat, DataOf, AfterReceive, AfterTryRead;
  }

  lemma AcceptorLeaves(c: Config, l: Link, a: Act)
    requires Enabled(c, l, a) && !WriterStep(a) && !UpdaterStep(a) && !a.ReadAgain?
    requires (l.buffers != [] ==> |l.buffers[0]| > 0) && (l.reader.AtEof? ==> l.wire == [])
    ensures Left(ApplyAcceptor(c, l, a)) < Left(l) && ApplyAcceptor(c, l, a).writer == l.writer
  {
    hide Left, AfterReceive, AfterTryRead;
    if a.TryRead? {
      ReadLeaves(c, l, a.max);
    } else if a.Receive? {
      ReceiveLeaves(l);
    } else {
      SmallStepLeaves(c, l, a);
    }
  }

  lemma WriterForgets(c: Config, l: Link, a: Act)
    requires FinGone(l.writer) && Enabled(c, l, a) && WriterStep(a)
    ensures Apply(c, l, a) == l.(writer := Closed, recorded := false) && l.writer.FinWritten?
    ensures Left(Apply(c, l, a)) < Left(l) && FinGone(Apply(c, l, a).writer)
  {
    assert a.Forget?;
    hide Flat, DataOf, AfterMeasure, AfterOpenWindow, AfterCut, AfterSend, Outgoing, U32, ApplyUpdater, ApplyAcceptor;
  }

  /** Every step of a closed stream but a new Read after io.EOF uses up some of what is left. */
  lemma ClosedStepLeaves(c: Config, l: Link, a: Act)
    requires Inv(c, l) && FinGone(l.writer) && Enabled(c, l, a) && !a.ReadAgain?
    ensures Left(Apply(c, l, a)) < Left(l) && FinGone(Apply(c, l, a).writer)
  {
    assert (l.buffers != [] ==> |l.buffers[0]| > 0) && (l.reader.AtEof? ==> l.wire == []) by {
      hide Conserved, UpdatesOk, WindowOk, SignalOk, AcksOk;
    }
    if UpdaterStep(a) {
      ByUpdater(c, l, a);
      hide *;
      UpdaterLeaves(c, l, a);
    } else if WriterStep(a) {
      hide Inv;
      WriterForgets(c, l, a);
    } else {
      ByAcceptor(c, l, a);
      hide *;
      AcceptorLeaves(c, l, a);
    }
  }

  lemma ClosedCanStep(c: Config, l: Link) returns (a: Act)
    requires Inv(c, l) && FinArrives(l) && FinGone(l.writer) && !l.reader.AtEof?
    ensures Enabled(c, l, a) && !a.ReadAgain?
  {
    hide Conserved, UpdatesOk, WindowOk, SignalOk, AcksOk;
    if l.wire != [] {
      a := Receive;
    } else {
      match l.reader
      case Ready => a := TryRead(1);
      case Acking(_) => a := Ack;
      case AckQueued(_) => a := SendBack;
      case Empty => a := WakeByFin;
    }
  }

  ghost predicate NoReadAgain(acts: seq<Act>) {
    forall a <- acts :: !a.ReadAgain?
  }

  lemma NoneInRest(acts: seq<Act>)
    requires NoReadAgain(acts) && acts != []
    ensures !acts[0].ReadAgain? && NoReadAgain(acts[1..])
  {
    assert forall a <- acts[1..] :: a in acts;
  }

  lemma EofIsComplete(c: Config, l: Link)
    requires Inv(c, l) && (l.reader.AtEof? || (l.fin && l.buffers == []))
    ensures l.taken == l.written
  {
    hide UpdatesOk, WindowOk, SignalOk, AcksOk;
    assert Flat(l.buffers) == [] && DataOf(l.wire) == [] && l.taken + [] == l.taken;
  }

  /** Once the FIN is written, whatever the two endpoints do, in whatever order: at most Left(l) steps are left, they do
      not run out before the reader is at io.EOF, and the reader then has every byte that was written. */
  lemma {:induction false} ClosedMustReachEof(c: Config, l: Link, acts: seq<Act>)
    requires Inv(c, l) && FinArrives(l) && FinGone(l.writer) && RunsFrom(c, l, acts) && NoReadAgain(acts)
    ensures |acts| <= Left(l)
    ensures var m := After(c, l, acts);
      if m.reader.AtEof? then m.taken == m.written else exists a :: Enabled(c, m, a) && !a.ReadAgain?
    decreases |acts|
  {
    hide Inv, FinArrives, Left, Enabled, Apply, NoReadAgain, FinGone;
    if acts == [] {
      if l.reader.AtEof? {
        EofIsComplete(c, l);
      } else {
        var a := ClosedCanStep(c, l);
      }
    } else {
      NoneInRest(acts);
      ClosedStepLeaves(c, l, acts[0]);
      InvKept(c, l, acts[0]);
      InvHasWire(c, l);
      FinArrivesKept(c, l, acts[0]);
      ClosedMustReachEof(c, Apply(c, l, acts[0]), acts[1..]);
    }
  }

  lemma InvHasWire(c: Config, l: Link)
    requires Inv(c, l)
    ensures WireOk(c, l)
  {
    hide Conserved, WireOk, UpdatesOk, WindowOk, SignalOk, AcksOk;
  }

  /** So some run does reach it; it writes nothing more. */
  lemma {:induction false} ClosedReachesEof(c: Config, l: Link) returns (acts: seq<Act>)
    requires Inv(c, l) && FinArrives(l) && FinGone(l.writer)
    ensures RunsFrom(c, l, acts)
    ensures After(c, l, acts).reader.AtEof? && After(c, l, acts).taken == After(c, l, acts).written == l.written
    decreases Left(l)
  {
    hide Inv, FinArrives, Left, Enabled, Apply, FinGone;
    if l.reader.AtEof? {
      acts := [];
      EofIsComplete(c, l);
    } else {
      var a := ClosedCanStep(c, l);
      ClosedStepLeaves(c, l, a);
      InvKept(c, l, a);
      InvHasWire(c, l);
      FinArrivesKept(c, l, a);
      ClosedWritesNothing(c, l, a);
      var rest := ClosedReachesEof(c, Apply(c, l, a));
      acts := [a] + rest;
      assert acts[1..] == rest;
    }
  }

  lemma ClosedWritesNothing(c: Config, l: Link, a: Act)
    requires FinGone(l.writer) && Enabled(c, l, a)
    ensures Apply(c, l, a).written == l.written
  {
    if WriterStep(a) {
      hide ApplyUpdater, ApplyAcceptor, AfterMeasure, AfterOpenWindow, AfterCut, AfterSend, Outgoing, U32;
    } else {
      OthersLeaveWriter(c, l, a);
      hide *;
    }
  }

  /** Close on a stream that is not writing: its FIN goes out, and the reader can come to io.EOF with every byte. */
  lemma CloseReachesEof(c: Config, l: Link) returns (acts: seq<Act>)
    requires ConfigOk(c) && Reachable(c, l) && l.writer.Idle?
    ensures RunsFrom(c, l, [CallClose, SendForward] + acts)
    ensures var m := After(c, l, [CallClose, SendForward] + acts); m.reader.AtEof? && m.taken == m.written == l.written
  {
    FinIsNotLost(c, l);
    var m := Apply(c, l, CallClose);
    var n := Apply(c, m, SendForward);
    assert n == l.(writer := FinWritten, wire := l.wire + [Fin]);
    hide Inv, Reachable, Apply, Enabled, FinArrives, RunsFrom, After;
    assert Enabled(c, l, CallClose) && Enabled(c, m, SendForward);
    InvKept(c, l, CallClose);
    InvKept(c, m, SendForward);
    assert FinArrives(n);
    acts := ClosedReachesEof(c, n);
    RunsCons(c, m, SendForward, acts);
    RunsCons(c, l, CallClose, [SendForward] + acts);
    assert [CallClose] + ([SendForward] + acts) == [CallClose, SendForward] + acts;
  }

  lemma ReadsAgain(c: Config, l: Link, max: nat)
    requires l.reader.AtEof? && l.fin && l.registered && l.buffers == [] && max > 0
    ensures Enabled(c, l, ReadAgain)
    ensures var m := Apply(c, l, ReadAgain);
      && m == l.(reader := Ready) && Enabled(c, m, TryRead(max)) && Enabled(c, Apply(c, m, TryRead(max)), WakeByFin)
  {
    hide AckDue, U32;
  }

  /** A Read after io.EOF looks again, and comes to io.EOF again. */
  lemma EofStays(c: Config, l: Link, max: nat)
    requires ConfigOk(c) && Reachable(c, l) && l.reader.AtEof? && max > 0
    ensures RunsFrom(c, l, [ReadAgain, TryRead(max), WakeByFin])
    ensures var m := After(c, l, [ReadAgain, TryRead(max), WakeByFin]); m.reader.AtEof? && m.taken == l.taken
  {
    FinIsNotLost(c, l);
    assert l.fin && l.registered && l.buffers == [] by {
      hide Conserved, UpdatesOk, WindowOk, SignalOk, AcksOk;
    }
    ReadsAgain(c, l, max);
    hide *;
    var m := Apply(c, l, ReadAgain);
    FinishMoves(c, m, TryRead(max));
    var n := Apply(c, m, TryRead(max));
    FinishMoves(c, n, WakeByFin);
    RunsNone(c, Apply(c, n, WakeByFin));
    RunsCons(c, n, WakeByFin, []);
    RunsCons(c, m, TryRead(max), [WakeByFin] + []);
    RunsCons(c, l, ReadAgain, [TryRead(max)] + ([WakeByFin] + []));
    assert [ReadAgain] + ([TryRead(max)] + ([WakeByFin] + [])) == [ReadAgain, TryRead(max), WakeByFin];
  }

  lemma RunsNone(c: Config, l: Link)
    ensures RunsFrom(c, l, []) && After(c, l, []) == l
  {}

  // ---------- Many streams, and the token buckets ----------

  /** For every stream of every reachable system: its FIN, once written, is handled or is its last frame on the wire. */
  lemma SystemFinArrives(k: Settings, g: System, sid: uint32)
    requires SettingsOk(k) && SysReachable(k, g) && Shape(g) && sid in g.ends
    ensures var l, ms := g.ends[sid], Only(g.wires[Opener(sid)], sid);
      && (FinGone(l.writer) ==> l.fin || (ms != [] && ms[|ms| - 1] == Fin))
      && (l.fin ==> FinGone(l.writer) && ms == [])
  {
    SysReachableOk(k, g);
    FinIsNotLost(ConfigOf(k, sid), View(g, sid));
    hide Inv, Only;
  }

  /** A reader's step that takes nothing: the tokens stay as they are. */
  lemma ReaderMoves(k: Settings, s: Pair, sid: uint32, b: Act)
    requires SettingsOk(k) && PairShape(s) && sid in s.g.ends && GivingOf(s, sid).Nothing?
    requires s.g.ends[sid].buffers == [] && (b.TryRead? || b.WakeByFin?)
    requires Enabled(ConfigOf(k, sid), View(s.g, sid), b)
    ensures PairEnabled(k, s, Sys(Do(sid, b)))
    ensures var r := PairApply(k, s, Sys(Do(sid, b)));
      && sid in r.g.ends && View(r.g, sid) == Apply(ConfigOf(k, sid), View(s.g, sid), b)
      && r.gates == s.gates && r.giving == s.giving
  {
    assert ReadCount(View(s.g, sid), if b.TryRead? then b.max else 0) == 0;
    hide Enabled, Apply, View, SysApply, ConfigOf;
    assert PairEnabled(k, s, Sys(Do(sid, b)));
    DoProjects(k, s.g, sid, b);
    DoOnGates(k, s, sid, b, 0);
    DoOnGates(k, s, sid, b, 1);
  }

  function GivingSteps(p: Giving): nat {
    match p
    case Nothing => 0
    case Owes(_) => 2
    case Notifying => 1
  }

  /** The FIN is handled and all bytes are read: what is left is to return tokens, and to find that nothing is left. */
  predicate Finishing(s: Pair, sid: uint32)
    requires PairShape(s)
  {
    sid in s.g.ends && var l := s.g.ends[sid];
      l.fin && l.registered && l.buffers == [] && (l.reader.Ready? || l.reader.Empty? || l.reader.AtEof?)
  }

  lemma FinishStep(k: Settings, s: Pair, sid: uint32) returns (a: PairAct)
    requires SettingsOk(k) && PairShape(s) && Finishing(s, sid) && !s.g.ends[sid].reader.AtEof?
    ensures PairEnabled(k, s, a) && PairOwn(a)
    ensures var r := PairApply(k, s, a);
      && Finishing(r, sid)
      && r.g.ends[sid].taken == s.g.ends[sid].taken && r.g.ends[sid].written == s.g.ends[sid].written
      && (GivingSteps(GivingOf(r, sid)) < GivingSteps(GivingOf(s, sid))
          || (GivingOf(r, sid) == GivingOf(s, sid)
              && if s.g.ends[sid].reader.Ready? then r.g.ends[sid].reader.Empty? else r.g.ends[sid].reader.AtEof?))
  {
    var p := GivingOf(s, sid);
    if p.Owes? {
      a := Return(sid);
    } else if p.Notifying? {
      a := NotifyBucket(sid);
    } else {
      var c, l := ConfigOf(k, sid), View(s.g, sid);
      var b := if l.reader.Ready? then TryRead(1) else WakeByFin;
      assert Enabled(c, l, b);
      FinishMoves(c, l, b);
      hide Enabled, Apply, PairEnabled, PairApply, ConfigOf, Only;
      ReaderMoves(k, s, sid, b);
      a := Sys(Do(sid, b));
    }
  }

  lemma FinishMoves(c: Config, l: Link, b: Act)
    requires Enabled(c, l, b) && l.buffers == [] && (b.TryRead? || b.WakeByFin?)
    ensures Apply(c, l, b) == l.(reader := if b.TryRead? then Empty else AtEof, taken := l.taken,
      numRead := Apply(c, l, b).numRead, incr := Apply(c, l, b).incr)
  {
    assert l.taken + [] == l.taken;
    hide AckDue, U32;
  }

  lemma {:induction false} Finish(k: Settings, s: Pair, sid: uint32) returns (acts: seq<PairAct>)
    requires SettingsOk(k) && PairShape(s) && Finishing(s, sid)
    ensures PairRuns(k, s, acts) && AllOwn(acts)
    ensures var r := PairAfter(k, s, acts);
      && sid in r.g.ends && r.g.ends[sid].reader.AtEof?
      && r.g.ends[sid].taken == s.g.ends[sid].taken && r.g.ends[sid].written == s.g.ends[sid].written
    decreases GivingSteps(GivingOf(s, sid)),
      if s.g.ends[sid].reader.Ready? then 2 else if s.g.ends[sid].reader.Empty? then 1 else 0
  {
    acts := [];
    if !s.g.ends[sid].reader.AtEof? {
      hide PairEnabled, PairApply, PairOwn;
      var a := FinishStep(k, s, sid);
      var rest := Finish(k, PairApply(k, s, a), sid);
      acts := [a] + rest;
      assert acts[1..] == rest;
    }
  }

  lemma RestIsFinishing(k: Settings, s: Pair, sid: uint32)
    requires SettingsOk(k) && PairShape(s) && StreamsOk(k, s.g) && sid in s.g.ends && AtRest(s, sid)
    requires FinGone(s.g.ends[sid].writer)
    ensures Finishing(s, sid) && s.g.ends[sid].taken == s.g.ends[sid].written
  {
    var c, l := ConfigOf(k, sid), View(s.g, sid);
    FinIsNotLost(c, l);
    assert l.fin && l.registered by {
      hide Conserved, UpdatesOk, WindowOk, SignalOk, AcksOk, Only;
    }
    hide Only;
    EofIsComplete(c, l);
  }

  /** With tokens at both ends, a stream whose FIN is written comes to io.EOF with every byte, whatever else is on the
      two wires and whoever holds the tokens, without any help from the application but that it reads. */
  lemma PairClosedReachesEof(k: Settings, max: seq<int>, s: Pair, sid: uint32) returns (acts: seq<PairAct>)
    requires SettingsOk(k) && BucketsOk(max) && Supplied(max) && PairReachable(k, max, s)
    requires PairShape(s) && sid in s.g.ends && FinGone(s.g.ends[sid].writer)
    ensures AllOwn(acts) && PairRuns(k, s, acts)
    ensures var r := PairAfter(k, s, acts);
      sid in r.g.ends && var l := r.g.ends[sid]; l.reader.AtEof? && l.taken == l.written == s.g.ends[sid].written
  {
    PairReachableInv(k, max, s);
    hide PairReachable, BucketsOk, StreamsOk, GateOk, GivingOk, AtRest, Supplied, AllOwn, Finishing, FinGone;
    hide PairRuns, PairAfter, DrainingRun, SettingsOk, ConfigOf;
    var first := DrainsOut(k, max, s, sid);
    DrainsAreOwn(k, s, first);
    var r := PairAfter(k, s, first);
    RestIsFinishing(k, r, sid);
    var more := Finish(k, r, sid);
    acts := first + more;
    PairConcat(k, s, first, more);
    OwnConcat(first, more);
  }
}
