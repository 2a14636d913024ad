/** One stream that both ends write and read, as long as neither closes it: two links in opposite directions that share
    the two wires and the two recvLoops. What the acceptor writes before OpenStream has returned is lost. */
module Duplex {
  import opened Arith
  import opened Wire
  import opened StreamLink

  /** The opener's and the acceptor's settings. */
  datatype Ends = Ends(version: int, openerFrame: nat, openerBuf: uint32, acceptorFrame: nat, acceptorBuf: uint32)

  function Forth(k: Ends): Config {
    Config(k.version, k.openerFrame, k.acceptorBuf)
  }

  function Back(k: Ends): Config {
    Config(k.version, k.acceptorFrame, k.openerBuf)
  }

  predicate EndsOk(k: Ends) {
    ConfigOk(Forth(k)) && ConfigOk(Back(k))
  }

  /** fwd and rev are the two directions, without their wires: there carries the opener's frames, data and reports, and
      here those of the acceptor. lost are the bytes of frames that arrived for a stream that was not in the map. Of the
      direction rev, registered says that the opener has the stream in its map; the writer leaves SynQueued when the SYN
      is sent and SynWritten when it has arrived. */
  datatype Duplex = Duplex(fwd: Link, rev: Link, there: seq<Msg>, here: seq<Msg>, lost: seq<byte>)

  const NEW := Duplex(START, START, [], [], [])

  function Frames(ms: seq<Msg>): seq<Msg> {
    if ms == [] then [] else (if ms[0].Upd? then [] else [ms[0]]) + Frames(ms[1..])
  }

  function Reports(ms: seq<Msg>): seq<Msg> {
    if ms == [] then [] else (if ms[0].Upd? then [ms[0]] else []) + Reports(ms[1..])
  }

  function FwdView(d: Duplex): Link {
    d.fwd.(wire := Frames(d.there), back := Reports(d.here))
  }

  /** The reverse direction as a link of its own: from the sending of the SYN until the opener has entered the stream in
      its map, a SYN of this direction stands before the acceptor's frames. */
  function RevView(d: Duplex): Link {
    d.rev.(wire := (if d.fwd.writer.SynWritten? then [Syn] else []) + Frames(d.here), back := Reports(d.there))
  }

  datatype DuplexAct =
    | Forward(a: Act)  // the opener's writer, the acceptor's reader, the opener's recvLoop storing an update
    | Reverse(a: Act)  // and the other way round
    | HandleThere      // the acceptor's recvLoop takes the next frame
    | HandleHere       // the opener's

  /** A step that takes nothing off a wire and closes nothing. */
  predicate Local(a: Act) {
    !a.Receive? && !a.ParseUpdate? && !a.CallClose?
  }

  predicate DuplexEnabled(k: Ends, d: Duplex, x: DuplexAct) {
    match x
    case Forward(a) => Local(a) && Enabled(Forth(k), FwdView(d), a)
    case Reverse(a) =>
      Local(a) && !a.Record? && (a.SendForward? ==> !d.rev.writer.SynQueued?) && Enabled(Back(k), RevView(d), a)
    case HandleThere => d.there != [] && d.rev.updater.NoUpdate?
    case HandleHere => d.here != [] && d.fwd.updater.NoUpdate?
  }

  /** What a step of link l appends to the wire of its writer, and to the wire of its reader. */
  function Sends(l: Link, a: Act): seq<Msg> {
    if a.SendForward? && (l.writer.SynQueued? || l.writer.Queued? || l.writer.FinQueued?) then [Outgoing(l.writer)]
    else []
  }

  function SendsBack(c: Config, l: Link, a: Act): seq<Msg> {
    if a.SendBack? && l.reader.AckQueued? then [Upd(l.reader.consumed, c.streamBuf, |l.taken|)] else []
  }

  function Bare(l: Link): Link {
    l.(wire := [], back := [])
  }

  function ApplyForward(k: Ends, d: Duplex, a: Act): Duplex
    requires DuplexEnabled(k, d, Forward(a))
  {
    var m := Apply(Forth(k), FwdView(d), a);
    Duplex(Bare(m),
           if a.SendForward? && d.fwd.writer.SynQueued? then d.rev.(writer := SynWritten)
           else if a.Record? then d.rev.(registered := true)
           else d.rev,
           d.there + Sends(d.fwd, a), d.here + SendsBack(Forth(k), d.fwd, a), d.lost)
  }

  function ApplyReverse(k: Ends, d: Duplex, a: Act): Duplex
    requires DuplexEnabled(k, d, Reverse(a))
  {
    var m := Apply(Back(k), RevView(d), a);
    d.(rev := Bare(m), there := d.there + SendsBack(Back(k), d.rev, a), here := d.here + Sends(d.rev, a))
  }

  /** The acceptor's recvLoop: an update belongs to the bytes that it writes, anything else to those that it reads; a
      SYN lets its application write. */
  function ApplyThere(k: Ends, d: Duplex): Duplex
    requires DuplexEnabled(k, d, HandleThere)
  {
    var e := d.(there := d.there[1..]);
    if d.there[0].Upd? then e.(rev := Bare(AfterParse(d.rev.(back := [d.there[0]]))))
    else
      e.(fwd := Bare(AfterReceive(d.fwd.(wire := [d.there[0]]))),
         rev := if d.there[0].Syn? && !d.fwd.registered then d.rev.(writer := Idle, recorded := true) else d.rev)
  }

  /** The opener's recvLoop: data for a stream that OpenStream has not entered yet is dropped. */
  function ApplyHere(k: Ends, d: Duplex): Duplex
    requires DuplexEnabled(k, d, HandleHere)
  {
    var e := d.(here := d.here[1..]);
    if d.here[0].Upd? then e.(fwd := Bare(AfterParse(d.fwd.(back := [d.here[0]]))))
    else if d.rev.registered then e.(rev := Bare(AfterReceive(d.rev.(wire := [d.here[0]]))))
    else e.(lost := d.lost + DataOf([d.here[0]]))
  }

  function DuplexApply(k: Ends, d: Duplex, x: DuplexAct): Duplex
    requires DuplexEnabled(k, d, x)
  {
    match x
    case Forward(a) => ApplyForward(k, d, a)
    case Reverse(a) => ApplyReverse(k, d, a)
    case HandleThere => ApplyThere(k, d)
    case HandleHere => ApplyHere(k, d)
  }

  /** An acceptor that writes only when it has read something of the opener's. */
  predicate Polite(d: Duplex, x: DuplexAct) {
    x.Reverse? && x.a.CallWrite? ==> d.fwd.taken != []
  }

  /** A run; if polite is set, one in which the acceptor is polite. */
  ghost predicate DuplexRuns(k: Ends, polite: bool, d: Duplex, acts: seq<DuplexAct>)
    decreases |acts|
  {
    acts == []
    || (DuplexEnabled(k, d, acts[0]) && (polite ==> Polite(d, acts[0]))
        && DuplexRuns(k, polite, DuplexApply(k, d, acts[0]), acts[1..]))
  }

  ghost function DuplexAfter(k: Ends, polite: bool, d: Duplex, acts: seq<DuplexAct>): Duplex
    requires DuplexRuns(k, polite, d, acts)
    decreases |acts|
  {
    if acts == [] then d else DuplexAfter(k, polite, DuplexApply(k, d, acts[0]), acts[1..])
  }

  ghost predicate DuplexReachable(k: Ends, polite: bool, d: Duplex) {
    exists acts :: DuplexRuns(k, polite, NEW, acts) && DuplexAfter(k, polite, NEW, acts) == d
  }

  // ---------- The two directions on two shared wires ----------

  lemma FramesCons(m: Msg, ms: seq<Msg>)
    ensures Frames([m] + ms) == (if m.Upd? then [] else [m]) + Frames(ms)
    ensures Reports([m] + ms) == (if m.Upd? then [m] else []) + Reports(ms)
  {
    assert ([m] + ms)[1..] == ms;
  }

  lemma Assoc(a: seq<Msg>, b: seq<Msg>, c: seq<Msg>)
    ensures (a + b) + c == a + (b + c)
  {}

  lemma {:induction false} FramesConcat(ms: seq<Msg>, more: seq<Msg>)
    ensures Frames(ms + more) == Frames(ms) + Frames(more) && Reports(ms + more) == Reports(ms) + Reports(more)
  {
    if ms == [] {
      assert ms + more == more;
    } else {
      FramesConcat(ms[1..], more);
      hide Frames, Reports;
      FramesCons(ms[0], ms[1..]);
      FramesCons(ms[0], ms[1..] + more);
      assert ms == [ms[0]] + ms[1..];
      Assoc([ms[0]], ms[1..], more);
      Assoc(if ms[0].Upd? then [] else [ms[0]], Frames(ms[1..]), Frames(more));
      Assoc(if ms[0].Upd? then [ms[0]] else [], Reports(ms[1..]), Reports(more));
    }
  }

  lemma FramesOfOne(m: Msg)
    ensures Frames([m]) == (if m.Upd? then [] else [m]) && Reports([m]) == if m.Upd? then [m] else []
  {
    assert [m][1..] == [];
  }

  lemma FramesRest(ms: seq<Msg>)
    requires ms != []
    ensures Frames(ms) == (if ms[0].Upd? then [] else [ms[0]]) + Frames(ms[1..])
    ensures Reports(ms) == (if ms[0].Upd? then [ms[0]] else []) + Reports(ms[1..])
    ensures ms[0].Upd? ==> Frames(ms[1..]) == Frames(ms) && Reports(ms) == [ms[0]] + Reports(ms[1..])
    ensures !ms[0].Upd? ==> Reports(ms[1..]) == Reports(ms) && Frames(ms) == [ms[0]] + Frames(ms[1..])
  {}

  /** What a link sends joins the frames of one wire and the reports of the other. */
  lemma SentAreFrames(l: Link, a: Act, ms: seq<Msg>)
    ensures Frames(ms + Sends(l, a)) == Frames(ms) + Sends(l, a) && Reports(ms + Sends(l, a)) == Reports(ms)
  {
    FramesConcat(ms, Sends(l, a));
    if Sends(l, a) != [] {
      FramesOfOne(Sends(l, a)[0]);
    }
    hide Frames, Reports;
    assert Reports(ms) + [] == Reports(ms) && Frames(ms) + [] == Frames(ms);
  }

  lemma SentBackAreReports(c: Config, l: Link, a: Act, ms: seq<Msg>)
    ensures Frames(ms + SendsBack(c, l, a)) == Frames(ms)
    ensures Reports(ms + SendsBack(c, l, a)) == Reports(ms) + SendsBack(c, l, a)
  {
    FramesConcat(ms, SendsBack(c, l, a));
    if SendsBack(c, l, a) != [] {
      FramesOfOne(SendsBack(c, l, a)[0]);
    }
    hide Frames, Reports;
    assert Reports(ms) + [] == Reports(ms) && Frames(ms) + [] == Frames(ms);
  }

  lemma LocalOnWires(c: Config, l: Link, a: Act)
    requires Enabled(c, l, a) && Local(a)
    ensures Apply(c, l, a).wire == l.wire + Sends(l, a) && Apply(c, l, a).back == l.back + SendsBack(c, l, a)
  {
    StepOnWires(c, l, a);
    hide Apply, Enabled;
    assert l.wire + [] == l.wire && l.back + [] == l.back;
  }

  /** The step of the forward direction that a step of the stream is, if it is one. */
  function FwdAct(d: Duplex, x: DuplexAct): seq<Act> {
    match x
    case Forward(a) => [a]
    case Reverse(_) => []
    case HandleThere => if d.there != [] && !d.there[0].Upd? then [StreamLink.Receive] else []
    case HandleHere => if d.here != [] && d.here[0].Upd? then [ParseUpdate] else []
  }

  lemma ForwardIsFwd(k: Ends, d: Duplex, a: Act)
    requires DuplexEnabled(k, d, Forward(a))
    ensures FwdView(ApplyForward(k, d, a)) == Apply(Forth(k), FwdView(d), a)
  {
    LocalOnWires(Forth(k), FwdView(d), a);
    SentAreFrames(d.fwd, a, d.there);
    SentBackAreReports(Forth(k), d.fwd, a, d.here);
    hide Apply, Enabled, Frames, Reports, Outgoing;
  }

  lemma ReverseKeepsFwd(k: Ends, d: Duplex, a: Act)
    requires DuplexEnabled(k, d, Reverse(a))
    ensures FwdView(ApplyReverse(k, d, a)) == FwdView(d)
  {
    SentAreFrames(d.rev, a, d.here);
    SentBackAreReports(Back(k), d.rev, a, d.there);
    hide Apply, Enabled, Frames, Reports, Outgoing;
  }

  lemma ReceiveHead(l: Link, m: Msg, rest: seq<Msg>, back: seq<Msg>)
    ensures AfterReceive(l.(wire := [m] + rest, back := back))
      == AfterReceive(l.(wire := [m])).(wire := rest, back := back)
  {
    assert ([m] + rest)[1..] == rest;
  }

  lemma ParseHead(l: Link, m: Msg, rest: seq<Msg>, wire: seq<Msg>)
    ensures AfterParse(l.(back := [m] + rest, wire := wire)) == AfterParse(l.(back := [m])).(back := rest, wire := wire)
  {
    assert ([m] + rest)[1..] == rest;
  }

  lemma ThereIsFwd(k: Ends, d: Duplex)
    requires DuplexEnabled(k, d, HandleThere)
    ensures d.there[0].Upd? ==> FwdView(ApplyThere(k, d)) == FwdView(d)
    ensures !d.there[0].Upd? ==>
      Enabled(Forth(k), FwdView(d), StreamLink.Receive)
      && FwdView(ApplyThere(k, d)) == Apply(Forth(k), FwdView(d), StreamLink.Receive)
  {
    FramesRest(d.there);
    hide Frames, Reports, AfterReceive, AfterParse;
    if !d.there[0].Upd? {
      ReceiveHead(d.fwd, d.there[0], Frames(d.there[1..]), Reports(d.here));
    }
  }

  lemma HereIsFwd(k: Ends, d: Duplex)
    requires DuplexEnabled(k, d, HandleHere)
    ensures !d.here[0].Upd? ==> FwdView(ApplyHere(k, d)) == FwdView(d)
    ensures d.here[0].Upd? ==>
      Enabled(Forth(k), FwdView(d), ParseUpdate)
      && FwdView(ApplyHere(k, d)) == Apply(Forth(k), FwdView(d), ParseUpdate)
  {
    FramesRest(d.here);
    hide Frames, Reports, AfterReceive, AfterParse;
    if d.here[0].Upd? {
      ParseHead(d.fwd, d.here[0], Reports(d.here[1..]), Frames(d.there));
    }
  }

  /** Each step is a step of the forward direction alone, or leaves it as it is. */
  lemma FwdProjects(k: Ends, d: Duplex, x: DuplexAct)
    requires DuplexEnabled(k, d, x)
    ensures var m := FwdView(DuplexApply(k, d, x));
      if FwdAct(d, x) == [] then m == FwdView(d)
      else Enabled(Forth(k), FwdView(d), FwdAct(d, x)[0]) && m == Apply(Forth(k), FwdView(d), FwdAct(d, x)[0])
  {
    match x
    case Forward(a) => ForwardIsFwd(k, d, a);
    case Reverse(a) => ReverseKeepsFwd(k, d, a);
    case HandleThere => ThereIsFwd(k, d);
    case HandleHere => HereIsFwd(k, d);
    hide Apply, Enabled, FwdView, ApplyForward, ApplyReverse, ApplyThere, ApplyHere;
  }

  // ---------- What holds of both directions when the acceptor is polite ----------

  /** How far OpenStream and the SYN have come, as both directions see it; nobody has closed. */
  predicate Coupled(d: Duplex) {
    && (d.fwd.writer.SynQueued? <==> d.rev.writer.SynQueued?)
    && (d.rev.writer.SynWritten? <==> !d.fwd.writer.SynQueued? && !d.fwd.registered)
    && (d.rev.registered <==> d.fwd.recorded)
    && NoFin(d.fwd.writer) && NoFin(d.rev.writer)
  }

  ghost predicate FwdOk(k: Ends, d: Duplex) {
    Reachable(Forth(k), FwdView(d)) && Coupled(d)
  }

  ghost predicate PoliteOk(k: Ends, d: Duplex) {
    && FwdOk(k, d) && Reachable(Back(k), RevView(d)) && d.lost == []
    && (d.rev.written != [] ==> d.fwd.taken != [])
  }

  /** What the forward direction says about its start: bytes are read only after OpenStream has returned. */
  lemma FwdFacts(k: Ends, d: Duplex)
    requires EndsOk(k) && FwdOk(k, d)
    ensures d.fwd.recorded <==> !d.fwd.writer.SynQueued? && !d.fwd.writer.SynWritten?
    ensures d.fwd.taken != [] ==> d.fwd.recorded
    ensures d.fwd.writer.SynQueued? ==> !d.fwd.registered && Frames(d.there) == []
    ensures d.there != [] && d.there[0].Syn? ==> !d.fwd.registered
    ensures d.there != [] && d.there[0].Psh? ==> d.fwd.registered
    ensures d.there != [] ==> !d.there[0].Fin?
  {
    ReachableInv(Forth(k), FwdView(d));
    EndToEnd(Forth(k), FwdView(d));
    if d.there != [] {
      FramesRest(d.there);
      assert !d.there[0].Upd? ==> FwdView(d).wire[0] == d.there[0];
    }
    hide Conserved, UpdatesOk, WindowOk, SignalOk, AcksOk, Frames, Reports;
  }

  lemma FwdStays(k: Ends, d: Duplex, x: DuplexAct)
    requires EndsOk(k) && FwdOk(k, d) && DuplexEnabled(k, d, x)
    ensures Reachable(Forth(k), FwdView(DuplexApply(k, d, x)))
  {
    FwdProjects(k, d, x);
    hide DuplexApply, DuplexEnabled, FwdView, Enabled, Apply, Reachable;
    if FwdAct(d, x) != [] {
      var m := Step(Forth(k), FwdView(d), FwdAct(d, x)[0]);
    }
  }

  predicate NoFin(w: Writer) {
    !w.FinQueued? && !FinGone(w)
  }

  /** A local step of a stream that nobody closes, as far as its opening is concerned. */
  predicate Opens(l: Link, a: Act, m: Link) {
    && (m.writer.SynQueued? <==> l.writer.SynQueued? && !a.SendForward?)
    && (m.writer.SynWritten? <==> (l.writer.SynQueued? && a.SendForward?) || (l.writer.SynWritten? && !a.Record?))
    && NoFin(m.writer) && m.registered == l.registered && (m.recorded <==> l.recorded || a.Record?)
  }

  lemma WriterOpens(c: Config, l: Link, a: Act)
    requires Enabled(c, l, a) && Local(a) && NoFin(l.writer) && WriterStep(a)
    ensures Opens(l, a, ApplyWriter(c, l, a)) && (a.Record? ==> l.writer.SynWritten?)
  {
    hide AfterMeasure, AfterOpenWindow, AfterCut, Outgoing, U32;
  }

  lemma AcceptorOpensNothing(c: Config, l: Link, a: Act)
    requires Enabled(c, l, a) && Local(a) && !WriterStep(a) && !UpdaterStep(a)
    ensures var m := ApplyAcceptor(c, l, a);
      m.writer == l.writer && m.registered == l.registered && m.recorded == l.recorded
  {
    hide AfterTryRead, AfterReceive;
  }

  lemma LocalOpens(c: Config, l: Link, a: Act)
    requires Enabled(c, l, a) && Local(a) && NoFin(l.writer)
    ensures Opens(l, a, Apply(c, l, a)) && (a.Record? ==> l.writer.SynWritten?)
  {
    if WriterStep(a) {
      hide ApplyWriter, Enabled, Opens;
      WriterOpens(c, l, a);
    } else if UpdaterStep(a) {
      ByUpdater(c, l, a);
      hide Apply, ApplyUpdater, Enabled;
    } else {
      ByAcceptor(c, l, a);
      AcceptorOpensNothing(c, l, a);
      hide Apply, ApplyAcceptor, Enabled;
    }
  }

  lemma ForwardCouples(k: Ends, d: Duplex, a: Act)
    requires EndsOk(k) && FwdOk(k, d) && DuplexEnabled(k, d, Forward(a))
    ensures Coupled(ApplyForward(k, d, a))
  {
    FwdFacts(k, d);
    LocalOpens(Forth(k), FwdView(d), a);
    hide Reachable, Apply, Enabled, Frames, Reports, Outgoing;
  }

  lemma ReverseCouples(k: Ends, d: Duplex, a: Act)
    requires Coupled(d) && DuplexEnabled(k, d, Reverse(a))
    ensures Coupled(ApplyReverse(k, d, a))
  {
    LocalOpens(Back(k), RevView(d), a);
    assert a.SendForward? ==> !d.rev.writer.SynQueued?;
    hide Apply, Enabled, Frames, Reports, Outgoing;
  }

  lemma ThereCouples(k: Ends, d: Duplex)
    requires EndsOk(k) && FwdOk(k, d) && DuplexEnabled(k, d, HandleThere)
    ensures Coupled(ApplyThere(k, d))
  {
    FwdFacts(k, d);
    hide FwdOk, Frames, Reports, AfterParse;
    assert Coupled(d);
    if d.there[0].Syn? {
      assert ApplyThere(k, d).fwd.registered && ApplyThere(k, d).rev.writer.Idle?;
    } else if !d.there[0].Upd? {
      assert ApplyThere(k, d).fwd.registered && ApplyThere(k, d).rev == d.rev;
    }
  }

  lemma HereCouples(k: Ends, d: Duplex)
    requires Coupled(d) && DuplexEnabled(k, d, HandleHere)
    ensures Coupled(ApplyHere(k, d))
  {
    hide DataOf;
  }

  /** The step of the reverse direction that a step of the stream is, if it is one. */
  function RevAct(d: Duplex, x: DuplexAct): seq<Act> {
    match x
    case Forward(a) =>
      if a.SendForward? && d.fwd.writer.SynQueued? then [SendForward]
      else if a.Record? then [StreamLink.Receive]
      else []
    case Reverse(a) => [a]
    case HandleThere =>
      if d.there == [] then [] else if d.there[0].Upd? then [ParseUpdate]
      else if d.there[0].Syn? && !d.fwd.registered then [Record]
      else []
    case HandleHere => if d.here != [] && !d.here[0].Upd? && d.rev.registered then [StreamLink.Receive] else []
  }

  predicate Projects(c: Config, l: Link, acts: seq<Act>, m: Link) {
    |acts| <= 1 && if acts == [] then m == l else Enabled(c, l, acts[0]) && m == Apply(c, l, acts[0])
  }

  lemma ReverseWires(k: Ends, d: Duplex, a: Act)
    requires DuplexEnabled(k, d, Reverse(a))
    ensures var m := Apply(Back(k), RevView(d), a);
      && m.wire == (if d.fwd.writer.SynWritten? then [Syn] else []) + Frames(d.here + Sends(d.rev, a))
      && m.back == Reports(d.there + SendsBack(Back(k), d.rev, a))
  {
    LocalOnWires(Back(k), RevView(d), a);
    assert Sends(RevView(d), a) == Sends(d.rev, a);
    assert SendsBack(Back(k), RevView(d), a) == SendsBack(Back(k), d.rev, a);
    hide Apply, Enabled, Frames, Reports, Outgoing, Sends, SendsBack, Local;
    SentAreFrames(d.rev, a, d.here);
    SentBackAreReports(Back(k), d.rev, a, d.there);
    Assoc(if d.fwd.writer.SynWritten? then [Syn] else [], Frames(d.here), Sends(d.rev, a));
  }

  lemma ReverseIsRev(k: Ends, d: Duplex, a: Act)
    requires DuplexEnabled(k, d, Reverse(a))
    ensures Projects(Back(k), RevView(d), [a], RevView(ApplyReverse(k, d, a)))
  {
    ReverseWires(k, d, a);
    hide Apply, Enabled, Frames, Reports, Sends, SendsBack, Local;
  }

  lemma SynGoes(c: Config, l: Link)
    requires l.writer.SynQueued?
    ensures Enabled(c, l, SendForward)
    ensures Apply(c, l, SendForward) == l.(writer := SynWritten, wire := l.wire + [Syn])
  {}

  lemma OpeningIsRev(k: Ends, d: Duplex, a: Act)
    requires EndsOk(k) && FwdOk(k, d) && DuplexEnabled(k, d, Forward(a))
    requires Frames(d.here) == [] && a.SendForward? && d.fwd.writer.SynQueued?
    ensures Projects(Back(k), RevView(d), [SendForward], RevView(ApplyForward(k, d, a)))
  {
    SynGoes(Forth(k), FwdView(d));
    SynGoes(Back(k), RevView(d));
    SentAreFrames(d.fwd, a, d.there);
    SentBackAreReports(Forth(k), d.fwd, a, d.here);
    assert Coupled(d);
    hide FwdOk, Frames, Reports, Apply, Enabled;
  }

  lemma SynArrives(c: Config, l: Link, rest: seq<Msg>)
    requires l.wire == [Syn] + rest && !l.registered
    ensures Enabled(c, l, StreamLink.Receive)
    ensures Apply(c, l, StreamLink.Receive) == l.(wire := rest, registered := true)
  {}

  lemma RecordingIsRev(k: Ends, d: Duplex, a: Act)
    requires EndsOk(k) && FwdOk(k, d) && DuplexEnabled(k, d, Forward(a)) && a.Record?
    ensures Projects(Back(k), RevView(d), [StreamLink.Receive], RevView(ApplyForward(k, d, a)))
  {
    FwdFacts(k, d);
    LocalOpens(Forth(k), FwdView(d), a);
    assert Coupled(d);
    hide FwdOk, Frames, Reports, Apply, Enabled;
    assert d.there + [] == d.there && d.here + [] == d.here;
    SynArrives(Back(k), RevView(d), Frames(d.here));
    assert [] + Frames(d.here) == Frames(d.here);
  }

  lemma OtherForwardIsNoRev(k: Ends, d: Duplex, a: Act)
    requires DuplexEnabled(k, d, Forward(a)) && NoFin(d.fwd.writer)
    requires !a.Record? && (a.SendForward? ==> !d.fwd.writer.SynQueued?)
    ensures RevView(ApplyForward(k, d, a)) == RevView(d)
  {
    SentAreFrames(d.fwd, a, d.there);
    SentBackAreReports(Forth(k), d.fwd, a, d.here);
    LocalOpens(Forth(k), FwdView(d), a);
    hide Frames, Reports, Enabled, Apply;
  }

  lemma ForwardIsRev(k: Ends, d: Duplex, a: Act)
    requires EndsOk(k) && FwdOk(k, d) && DuplexEnabled(k, d, Forward(a))
    requires d.rev.writer.SynQueued? ==> Frames(d.here) == []
    ensures Projects(Back(k), RevView(d), RevAct(d, Forward(a)), RevView(ApplyForward(k, d, a)))
  {
    assert NoFin(d.fwd.writer) && (d.fwd.writer.SynQueued? ==> d.rev.writer.SynQueued?);
    hide FwdOk, RevView, FwdView, ApplyForward, Enabled;
    if a.SendForward? && d.fwd.writer.SynQueued? {
      OpeningIsRev(k, d, a);
    } else if a.Record? {
      RecordingIsRev(k, d, a);
    } else {
      OtherForwardIsNoRev(k, d, a);
    }
  }

  lemma SynHandled(c: Config, l: Link)
    requires l.writer.SynWritten?
    ensures Enabled(c, l, Record) && Apply(c, l, Record) == l.(writer := Idle, recorded := true)
  {}

  lemma ReportIsRev(k: Ends, d: Duplex)
    requires DuplexEnabled(k, d, HandleThere) && d.there[0].Upd?
    ensures Enabled(Back(k), RevView(d), ParseUpdate)
    ensures RevView(ApplyThere(k, d)) == Apply(Back(k), RevView(d), ParseUpdate)
  {
    FramesRest(d.there);
    hide Frames, Reports, AfterReceive, AfterParse;
    ParseHead(d.rev, d.there[0], Reports(d.there[1..]), RevView(d).wire);
  }

  lemma SynIsRev(k: Ends, d: Duplex)
    requires DuplexEnabled(k, d, HandleThere) && d.there[0].Syn? && !d.fwd.registered && d.rev.writer.SynWritten?
    ensures Enabled(Back(k), RevView(d), Record)
    ensures RevView(ApplyThere(k, d)) == Apply(Back(k), RevView(d), Record)
  {
    FramesRest(d.there);
    hide Frames, Reports, AfterReceive, AfterParse;
    SynHandled(Back(k), RevView(d));
    hide Apply, Enabled;
  }

  lemma DataIsNoRev(k: Ends, d: Duplex)
    requires DuplexEnabled(k, d, HandleThere) && !d.there[0].Upd? && (d.there[0].Syn? ==> d.fwd.registered)
    ensures RevView(ApplyThere(k, d)) == RevView(d)
  {
    FramesRest(d.there);
    hide Frames, Reports, AfterReceive, AfterParse;
  }

  lemma ThereIsRev(k: Ends, d: Duplex)
    requires EndsOk(k) && FwdOk(k, d) && DuplexEnabled(k, d, HandleThere)
    ensures Projects(Back(k), RevView(d), RevAct(d, HandleThere), RevView(ApplyThere(k, d)))
  {
    FwdFacts(k, d);
    assert Coupled(d);
    hide FwdOk, ApplyThere, Apply, Enabled, RevView;
    if d.there[0].Upd? {
      ReportIsRev(k, d);
    } else if d.there[0].Syn? && !d.fwd.registered {
      SynIsRev(k, d);
    } else {
      DataIsNoRev(k, d);
    }
  }

  lemma ReportIsNoRev(k: Ends, d: Duplex)
    requires DuplexEnabled(k, d, HandleHere) && d.here[0].Upd?
    ensures RevView(ApplyHere(k, d)) == RevView(d)
  {
    FramesRest(d.here);
    hide Frames, Reports, AfterReceive, AfterParse;
  }

  lemma DataIsRev(k: Ends, d: Duplex)
    requires DuplexEnabled(k, d, HandleHere) && !d.here[0].Upd? && d.rev.registered && !d.fwd.writer.SynWritten?
    ensures Enabled(Back(k), RevView(d), StreamLink.Receive)
    ensures RevView(ApplyHere(k, d)) == Apply(Back(k), RevView(d), StreamLink.Receive)
  {
    FramesRest(d.here);
    hide Frames, Reports, AfterReceive, AfterParse;
    assert [] + Frames(d.here) == Frames(d.here) && [] + Frames(d.here[1..]) == Frames(d.here[1..]);
    ReceiveHead(d.rev, d.here[0], Frames(d.here[1..]), Reports(d.there));
  }

  lemma HereIsRev(k: Ends, d: Duplex)
    requires EndsOk(k) && FwdOk(k, d) && DuplexEnabled(k, d, HandleHere) && (d.here[0].Upd? || d.rev.registered)
    ensures Projects(Back(k), RevView(d), RevAct(d, HandleHere), RevView(ApplyHere(k, d)))
  {
    FwdFacts(k, d);
    assert Coupled(d);
    hide FwdOk, ApplyHere, RevView, Apply, Enabled;
    if d.here[0].Upd? {
      ReportIsNoRev(k, d);
    } else {
      DataIsRev(k, d);
    }
  }

  /** A frame of the acceptor's comes early if the opener has not entered the stream in its map. */
  predicate Early(d: Duplex, x: DuplexAct) {
    x.HandleHere? && d.here != [] && !d.here[0].Upd? && !d.rev.registered
  }

  /** Unless it comes early, each step is a step of the reverse direction alone, or leaves it as it is. */
  lemma RevProjects(k: Ends, d: Duplex, x: DuplexAct)
    requires EndsOk(k) && FwdOk(k, d) && DuplexEnabled(k, d, x) && !Early(d, x)
    requires d.rev.writer.SynQueued? ==> Frames(d.here) == []
    ensures Projects(Back(k), RevView(d), RevAct(d, x), RevView(DuplexApply(k, d, x)))
  {
    hide FwdOk, RevView, Projects, Frames, ApplyForward, ApplyReverse, ApplyThere, ApplyHere;
    match x
    case Forward(a) => ForwardIsRev(k, d, a);
    case Reverse(a) => ReverseIsRev(k, d, a);
    case HandleThere => ThereIsRev(k, d);
    case HandleHere => HereIsRev(k, d);
  }

  lemma FwdOkKept(k: Ends, d: Duplex, x: DuplexAct)
    requires EndsOk(k) && FwdOk(k, d) && DuplexEnabled(k, d, x)
    ensures FwdOk(k, DuplexApply(k, d, x))
  {
    FwdStays(k, d, x);
    hide Reachable, FwdView, ApplyForward, ApplyReverse, ApplyThere, ApplyHere;
    match x
    case Forward(a) => ForwardCouples(k, d, a);
    case Reverse(a) => ReverseCouples(k, d, a);
    case HandleThere => ThereCouples(k, d);
    case HandleHere => HereCouples(k, d);
  }

  lemma WhatChanges(k: Ends, d: Duplex, x: DuplexAct)
    requires DuplexEnabled(k, d, x)
    ensures var e := DuplexApply(k, d, x);
      && e.rev.written == d.rev.written + (if x.Reverse? && x.a.CallWrite? then x.a.b else [])
      && (d.fwd.taken != [] ==> e.fwd.taken != [])
      && (Early(d, x) || e.lost == d.lost)
  {
    if x.Reverse? {
      OnlyCallsWrite(Back(k), RevView(d), x.a);
    } else if x.Forward? {
      TakenGrows(Forth(k), FwdView(d), x.a);
    }
    assert d.rev.written + [] == d.rev.written;
    hide Apply, Enabled, Frames, Reports, DataOf;
  }

  lemma WriterWrites(c: Config, l: Link, a: Act)
    requires Enabled(c, l, a) && WriterStep(a)
    ensures ApplyWriter(c, l, a).written == l.written + if a.CallWrite? then a.b else []
  {
    assert l.written + [] == l.written;
    hide AfterMeasure, AfterOpenWindow, AfterCut, AfterSend, Outgoing, U32;
  }

  lemma OnlyCallsWrite(c: Config, l: Link, a: Act)
    requires Enabled(c, l, a)
    ensures Apply(c, l, a).written == l.written + if a.CallWrite? then a.b else []
  {
    if WriterStep(a) {
      hide ApplyWriter, Enabled;
      WriterWrites(c, l, a);
    } else {
      hide Apply, Enabled;
      OthersLeaveWriter(c, l, a);
      assert l.written + [] == l.written;
    }
  }

  lemma TakenGrows(c: Config, l: Link, a: Act)
    requires Enabled(c, l, a)
    ensures l.taken != [] ==> Apply(c, l, a).taken != []
  {
    if UpdaterStep(a) {
      ByUpdater(c, l, a);
      hide Apply, Enabled;
    } else if WriterStep(a) {
      hide ApplyWriter, Enabled;
    } else {
      ByAcceptor(c, l, a);
      hide Apply, Enabled, AckDue, AfterReceive;
    }
  }

  /** Bytes on the wire were written. */
  lemma DataWasWritten(c: Config, l: Link, ms: seq<Msg>)
    requires Inv(c, l) && ms != [] && l.wire == [Syn] + ms && NoFin(l.writer)
    ensures ms[0].Psh? && l.written != []
  {
    assert l.wire[1] == ms[0];
    assert ms[0].Psh? && ms[0].data != [] by {
      hide Conserved, UpdatesOk, WindowOk, SignalOk, AcksOk;
    }
    DataOfCons(Syn, ms);
    assert DataOf(ms) != [];
    hide Flat, DataOf, WireOk, UpdatesOk, WindowOk, SignalOk, AcksOk;
  }

  /** A polite acceptor's frames never come early: it has read what OpenStream's caller wrote. */
  lemma NeverEarly(k: Ends, d: Duplex, x: DuplexAct)
    requires EndsOk(k) && PoliteOk(k, d) && DuplexEnabled(k, d, x)
    ensures !Early(d, x)
    ensures d.rev.writer.SynQueued? ==> Frames(d.here) == []
  {
    FwdFacts(k, d);
    ReachableInv(Back(k), RevView(d));
    assert Coupled(d);
    assert d.fwd.writer.SynQueued? ==> [] + Frames(d.here) == Frames(d.here);
    assert d.rev.writer.SynQueued? ==> Frames(d.here) == [] by {
      hide Conserved, UpdatesOk, WindowOk, SignalOk, AcksOk, Frames, Reports;
    }
    if Early(d, x) {
      FramesRest(d.here);
      hide Reachable, Frames, Reports, Inv;
      DataWasWritten(Back(k), RevView(d), Frames(d.here));
    }
  }

  lemma PoliteOkKept(k: Ends, d: Duplex, x: DuplexAct)
    requires EndsOk(k) && PoliteOk(k, d) && DuplexEnabled(k, d, x) && Polite(d, x)
    ensures PoliteOk(k, DuplexApply(k, d, x))
  {
    NeverEarly(k, d, x);
    FwdOkKept(k, d, x);
    RevProjects(k, d, x);
    WhatChanges(k, d, x);
    hide Reachable, RevView, FwdView, DuplexApply, DuplexEnabled, Frames, Coupled, Enabled, Apply;
    if RevAct(d, x) != [] {
      var m := Step(Back(k), RevView(d), RevAct(d, x)[0]);
    }
  }

  lemma NewIsOk(k: Ends)
    requires EndsOk(k)
    ensures PoliteOk(k, NEW)
  {
    assert RunsFrom(Forth(k), START, []) && After(Forth(k), START, []) == START;
    assert RunsFrom(Back(k), START, []) && After(Back(k), START, []) == START;
    assert FwdView(NEW) == START;
    assert RevView(NEW) == START;
  }

  lemma {:induction false} PoliteRuns(k: Ends, d: Duplex, acts: seq<DuplexAct>)
    requires EndsOk(k) && PoliteOk(k, d) && DuplexRuns(k, true, d, acts)
    ensures PoliteOk(k, DuplexAfter(k, true, d, acts))
    decreases |acts|
  {
    hide PoliteOk, DuplexApply, DuplexEnabled, Polite;
    if acts != [] {
      PoliteOkKept(k, d, acts[0]);
      PoliteRuns(k, DuplexApply(k, d, acts[0]), acts[1..]);
    }
  }

  lemma PoliteReachable(k: Ends, d: Duplex)
    requires EndsOk(k) && DuplexReachable(k, true, d)
    ensures PoliteOk(k, d)
  {
    hide PoliteOk;
    NewIsOk(k);
    var acts :| DuplexRuns(k, true, NEW, acts) && DuplexAfter(k, true, NEW, acts) == d;
    PoliteRuns(k, NEW, acts);
  }

  /** With a polite acceptor both directions behave as a link on its own: each has all that StreamLink proves. In
      particular the bytes of both directions arrive in order and nothing is lost. */
  lemma BothDirections(k: Ends, d: Duplex)
    requires EndsOk(k) && DuplexReachable(k, true, d)
    ensures Reachable(Forth(k), FwdView(d)) && Reachable(Back(k), RevView(d)) && d.lost == []
    ensures var l := d.fwd;
      l.written == l.taken + Flat(l.buffers) + DataOf(Frames(d.there)) + Pending(l.writer) + Uncut(l.writer)
    ensures var l := d.rev;
      l.written == l.taken + Flat(l.buffers) + DataOf(RevView(d).wire) + Pending(l.writer) + Uncut(l.writer)
    ensures k.version == 2 ==>
      && Sent(d.fwd) - d.fwd.acked <= MaxWindow(Forth(k)) && Sent(d.rev) - d.rev.acked <= MaxWindow(Back(k))
      && |Flat(d.fwd.buffers)| <= MaxWindow(Forth(k)) && |Flat(d.rev.buffers)| <= MaxWindow(Back(k))
      && !d.fwd.writer.Refused? && !d.rev.writer.Refused?
  {
    PoliteReachable(k, d);
    EndToEnd(Forth(k), FwdView(d));
    EndToEnd(Back(k), RevView(d));
    hide DuplexReachable, Reachable, Flat, DataOf, Frames, Reports;
    if k.version == 2 {
      WindowSafety(Forth(k), FwdView(d));
      WindowSafety(Back(k), RevView(d));
      WindowArithmeticIsExact(Forth(k), FwdView(d));
      WindowArithmeticIsExact(Back(k), RevView(d));
    }
  }

  // ---------- What holds whether it is polite or not ----------

  /** A link without the first n bytes written. */
  function Without(l: Link, n: nat): Link {
    l.(written := if n <= |l.written| then l.written[n..] else [])
  }

  /** The bytes lost are the first that the acceptor wrote; all the others are in order in the places of a link. */
  ghost predicate LossOk(k: Ends, d: Duplex) {
    FwdOk(k, d) && LossIn(Back(k), RevView(d), d.lost)
  }

  ghost predicate LossIn(c: Config, m: Link, lost: seq<byte>) {
    && |lost| <= |m.written| && lost == m.written[..|lost|] && (!m.registered ==> m.taken == [])
    && WireOk(c, Without(m, |lost|)) && Conserved(Without(m, |lost|))
    && (c.version == 2 ==> UpdatesOk(c, m) && WindowOk(c, m))
  }

  lemma ReadWithout(c: Config, l: Link, max: nat, n: nat)
    requires n <= |l.written|
    ensures AfterTryRead(c, Without(l, n), max) == Without(AfterTryRead(c, l, max), n)
  {
    hide UpdateDue, U32;
  }

  lemma AcceptorWithout(c: Config, l: Link, a: Act, n: nat)
    requires n <= |l.written| && Enabled(c, l, a) && !WriterStep(a) && !UpdaterStep(a)
    ensures Enabled(c, Without(l, n), a)
    ensures ApplyAcceptor(c, Without(l, n), a) == Without(ApplyAcceptor(c, l, a), n)
  {
    hide AfterTryRead, AfterReceive;
    if a.TryRead? {
      ReadWithout(c, l, a.max, n);
    } else if a.Receive? {
      ReceiveWithout(l, l.written[n..]);
    }
  }

  lemma ReceiveWithout(l: Link, w: seq<byte>)
    requires l.wire != []
    ensures AfterReceive(l.(written := w)) == AfterReceive(l).(written := w)
  {
    match l.wire[0]
    case Syn =>
    case Psh(_) =>
    case Fin =>
    case Upd(_, _, _) =>
  }

  lemma UpdaterWithout(c: Config, l: Link, a: Act, n: nat)
    requires n <= |l.written| && Enabled(c, l, a) && UpdaterStep(a)
    ensures Enabled(c, Without(l, n), a)
    ensures ApplyUpdater(c, Without(l, n), a) == Without(ApplyUpdater(c, l, a), n)
  {}

  lemma CallWithout(c: Config, l: Link, b: seq<byte>, n: nat)
    requires n <= |l.written| && Enabled(c, l, CallWrite(b))
    ensures ApplyWriter(c, Without(l, n), CallWrite(b)) == Without(ApplyWriter(c, l, CallWrite(b)), n)
  {
    assert l.written[n..] + b == (l.written + b)[n..];
  }

  /** No step of a writer but a call of Write looks at them. */
  lemma WriterElsewhere(c: Config, l: Link, a: Act, w: seq<byte>)
    requires Enabled(c, l, a) && WriterStep(a) && !a.CallWrite?
    ensures Enabled(c, l.(written := w), a) && ApplyWriter(c, l, a).written == l.written
    ensures ApplyWriter(c, l.(written := w), a) == ApplyWriter(c, l, a).(written := w)
  {
    hide AfterOpenWindow, AfterCut, Outgoing, AfterSend, U32, Inflight;
    match a
    case SendForward =>
    case Record =>
    case Measure => assert AfterMeasure(c, l.(written := w)) == AfterMeasure(c, l);
    case OpenWindow =>
    case Cut =>
    case Count =>
    case TakeUpdate =>
    case CallClose =>
    case Forget =>
  }

  lemma WriterWithout(c: Config, l: Link, a: Act, n: nat)
    requires n <= |l.written| && Enabled(c, l, a) && WriterStep(a)
    ensures Enabled(c, Without(l, n), a)
    ensures ApplyWriter(c, Without(l, n), a) == Without(ApplyWriter(c, l, a), n)
  {
    if a.CallWrite? {
      CallWithout(c, l, a.b, n);
    } else {
      hide ApplyWriter, Enabled, WriterStep;
      WriterElsewhere(c, l, a, l.written[n..]);
    }
  }

  /** No step looks at the bytes already written. */
  lemma ApplyWithout(c: Config, l: Link, a: Act, n: nat)
    requires n <= |l.written| && Enabled(c, l, a)
    ensures Enabled(c, Without(l, n), a) && Apply(c, Without(l, n), a) == Without(Apply(c, l, a), n)
  {
    hide Without, Enabled, WriterStep, UpdaterStep, ApplyWriter, ApplyUpdater, ApplyAcceptor;
    if WriterStep(a) {
      WriterWithout(c, l, a, n);
    } else if UpdaterStep(a) {
      UpdaterWithout(c, l, a, n);
    } else {
      AcceptorWithout(c, l, a, n);
    }
  }

  /** No writer is ever told that more was consumed than it sent. */
  lemma RevNotRefused(k: Ends, d: Duplex, a: Act)
    requires EndsOk(k) && LossOk(k, d) && Enabled(Back(k), RevView(d), a)
    ensures !Apply(Back(k), RevView(d), a).writer.Refused?
    ensures k.version == 2 ==> BehindSent(RevView(d))
  {
    if k.version == 2 {
      LossBehind(k, d);
    }
    assert !RevView(d).writer.Refused? by { hide Conserved, FwdOk, UpdatesOk, WindowOk; }
    if a.Measure? {
      if k.version == 2 {
        MeasureKeepsWindow(Back(k), RevView(d)) by { hide WireOk, Conserved, FwdOk; }
      }
      hide LossOk, RevView;
    } else {
      hide *;
      OthersAreNotRefused(Back(k), RevView(d), a);
    }
  }

  /** No more is acknowledged than was sent. */
  predicate BehindSent(l: Link) {
    l.acked <= Sent(l) && (l.updater.Parsed? ==> l.acked <= l.updater.total)
  }

  lemma LossBehind(k: Ends, d: Duplex)
    requires EndsOk(k) && LossOk(k, d) && k.version == 2
    ensures BehindSent(RevView(d))
  {
    var l := Without(RevView(d), |d.lost|);
    SentIsSomewhere(l);
    assert Sent(RevView(d)) == Sent(l) + |d.lost|;
    hide WireOk, Conserved, FwdOk, WindowOk, HonestUpdates, Flat, DataOf, Frames, Reports;
  }

  lemma LossBytes(c: Config, l: Link, a: Act, n: nat)
    requires ConfigOk(c) && Enabled(c, l, a) && n <= |l.written| && !Apply(c, l, a).writer.Refused?
    requires WireOk(c, Without(l, n)) && Conserved(Without(l, n))
    ensures WireOk(c, Without(Apply(c, l, a), n)) && Conserved(Without(Apply(c, l, a), n))
  {
    ApplyWithout(c, l, a, n);
    assert Without(Apply(c, l, a), n).writer == Apply(c, l, a).writer;
    hide WireOk, Conserved, Apply, Enabled, Without;
    WireOkKept(c, Without(l, n), a);
    ConservedKept(c, Without(l, n), a);
  }

  lemma LossPrefix(c: Config, l: Link, a: Act, lost: seq<byte>)
    requires Enabled(c, l, a) && |lost| <= |l.written| && lost == l.written[..|lost|]
    ensures |lost| <= |Apply(c, l, a).written| && lost == Apply(c, l, a).written[..|lost|]
  {
    OnlyCallsWrite(c, l, a);
    hide Apply, Enabled;
  }

  lemma LossWindow(c: Config, l: Link, a: Act)
    requires ConfigOk(c) && c.version == 2 && UpdatesOk(c, l) && WindowOk(c, l) && Enabled(c, l, a) && BehindSent(l)
    ensures UpdatesOk(c, Apply(c, l, a)) && WindowOk(c, Apply(c, l, a))
  {
    hide UpdatesOk, WindowOk, Apply, Enabled;
    UpdatesOkKept(c, l, a);
    WindowKeptBehind(c, l, a);
  }

  /** Before the stream is entered nothing has been read, so a frame that is dropped holds the first bytes left. */
  lemma DropConserves(l: Link, data: seq<byte>, rest: seq<Msg>)
    requires Conserved(l) && l.wire == [Syn] + ([Psh(data)] + rest) && l.buffers == [] && l.taken == []
    ensures |data| <= |l.written| && l.written[..|data|] == data
    ensures Conserved(l.(wire := [Syn] + rest, written := l.written[|data|..]))
  {
    DataOfCons(Syn, [Psh(data)] + rest);
    DataOfCons(Psh(data), rest);
    DataOfCons(Syn, rest);
    hide DataOf;
    var x := Pending(l.writer) + Uncut(l.writer);
    assert [] + (data + DataOf(rest)) == data + DataOf(rest) && [] + DataOf(rest) == DataOf(rest);
    Regroup(data, DataOf(rest), x);
    assert l.written == data + (DataOf(rest) + x);
  }

  lemma DropKeepsWire(c: Config, l: Link, data: seq<byte>, rest: seq<Msg>, w: seq<byte>)
    requires WireOk(c, l) && l.wire == [Syn] + ([Psh(data)] + rest)
    requires l.writer.SynQueued? || l.writer.SynWritten? ==> w == []
    ensures WireOk(c, l.(wire := [Syn] + rest, written := w))
  {
    var m := l.(wire := [Syn] + rest, written := w);
    forall i | 0 < i < |m.wire|
      ensures !m.wire[i].Upd? && !m.wire[i].Syn? && (m.wire[i].Fin? ==> i == |m.wire| - 1 && FinGone(m.writer))
      ensures m.wire[i].Psh? ==> 0 < |m.wire[i].data| <= c.frameSize
    {
      assert m.wire[i] == l.wire[i + 1];
    }
    assert l.wire[0] == Syn && m.wire[0] == Syn;
  }

  lemma Slices(w: seq<byte>, lost: seq<byte>, data: seq<byte>)
    requires |lost| <= |w| && lost == w[..|lost|] && |data| <= |w[|lost|..]| && data == w[|lost|..][..|data|]
    ensures |lost + data| <= |w| && lost + data == w[..|lost + data|]
    ensures w[|lost|..][|data|..] == w[|lost + data|..]
  {}

  /** A link that was never read loses the frame behind its SYN: its bytes join those lost. */
  lemma DropLoses(c: Config, m: Link, lost: seq<byte>, data: seq<byte>, rest: seq<Msg>)
    requires LossIn(c, m, lost) && m.wire == [Syn] + ([Psh(data)] + rest) && m.buffers == [] && m.taken == []
    ensures LossIn(c, m.(wire := [Syn] + rest), lost + data)
  {
    var l, e := Without(m, |lost|), m.(wire := [Syn] + rest);
    assert l == m.(written := m.written[|lost|..]);
    hide WireOk, Conserved, UpdatesOk, WindowOk, DataOf;
    DropConserves(l, data, rest);
    DropWire(c, l, data, rest);
    Slices(m.written, lost, data);
    assert Without(e, |lost + data|) == e.(written := m.written[|lost + data|..]);
    if c.version == 2 {
      WireIsNoWindow(c, m, [Syn] + rest);
    }
    hide Without;
  }

  lemma DropWire(c: Config, l: Link, data: seq<byte>, rest: seq<Msg>)
    requires WireOk(c, l) && l.wire == [Syn] + ([Psh(data)] + rest) && |data| <= |l.written|
    ensures WireOk(c, l.(wire := [Syn] + rest, written := l.written[|data|..]))
  {
    assert l.writer.SynQueued? || l.writer.SynWritten? ==> l.written == [];
    hide WireOk;
    DropKeepsWire(c, l, data, rest, l.written[|data|..]);
  }

  /** The window does not depend on what is on the wire. */
  lemma WireIsNoWindow(c: Config, m: Link, wire: seq<Msg>)
    requires UpdatesOk(c, m) && WindowOk(c, m)
    ensures UpdatesOk(c, m.(wire := wire)) && WindowOk(c, m.(wire := wire))
  {
    hide HonestUpdates, U32;
  }

  lemma WireFacts(c: Config, m: Link, lost: seq<byte>)
    requires LossIn(c, m, lost)
    ensures m.writer.SynQueued? ==> m.wire == []
    ensures !m.registered ==> m.buffers == [] && m.taken == []
    ensures |m.wire| > 1 ==> !m.wire[1].Upd? && !m.wire[1].Syn? && (m.wire[1].Fin? ==> FinGone(m.writer))
  {
    hide Conserved, UpdatesOk, WindowOk;
  }

  lemma EarlyFrame(k: Ends, d: Duplex) returns (rest: seq<Msg>)
    requires EndsOk(k) && LossOk(k, d) && DuplexEnabled(k, d, HandleHere) && Early(d, HandleHere)
    ensures d.fwd.writer.SynWritten? && d.here[0].Psh? && rest == Frames(d.here[1..])
    ensures RevView(d).wire == [Syn] + ([d.here[0]] + rest) && d.rev.buffers == [] && d.rev.taken == []
  {
    FramesRest(d.here);
    FwdFacts(k, d);
    WireFacts(Back(k), RevView(d), d.lost);
    assert Coupled(d);
    hide LossIn, FwdOk, Frames, Reports;
    rest := Frames(d.here[1..]);
    assert d.fwd.writer.SynQueued? ==> [] + Frames(d.here) == Frames(d.here);
    assert d.fwd.writer.SynWritten?;
    assert RevView(d).wire[1] == d.here[0];
  }

  lemma EarlyKeepsLoss(k: Ends, d: Duplex)
    requires EndsOk(k) && LossOk(k, d) && DuplexEnabled(k, d, HandleHere) && Early(d, HandleHere)
    ensures LossOk(k, ApplyHere(k, d))
  {
    hide LossIn, FwdOk, Frames, Reports, DataOf, Early;
    FwdOkKept(k, d, HandleHere);
    var rest := EarlyFrame(k, d);
    var data := d.here[0].data;
    DropLoses(Back(k), RevView(d), d.lost, data, rest);
    DataOfOne(data);
    IsEarly(d);
    assert RevView(ApplyHere(k, d)) == RevView(d).(wire := [Syn] + rest);
    hide RevView;
  }

  lemma IsEarly(d: Duplex)
    requires Early(d, HandleHere)
    ensures d.here != [] && !d.here[0].Upd? && !d.rev.registered
  {}

  lemma DataOfOne(data: seq<byte>)
    ensures DataOf([Psh(data)]) == data
  {
    DataOfCons(Psh(data), []);
    assert [Psh(data)] + [] == [Psh(data)] && data + [] == data;
  }

  lemma NothingBeforeSyn(k: Ends, d: Duplex)
    requires EndsOk(k) && LossOk(k, d)
    ensures d.rev.writer.SynQueued? ==> Frames(d.here) == []
  {
    assert Coupled(d);
    assert d.fwd.writer.SynQueued? ==> [] + Frames(d.here) == Frames(d.here);
    hide Conserved, UpdatesOk, WindowOk, FwdOk, Frames, Reports;
  }

  /** Only a registered stream is read. */
  lemma ReadsOnlyRegistered(c: Config, l: Link, a: Act)
    requires Enabled(c, l, a) && (!l.registered ==> l.taken == [])
    ensures !Apply(c, l, a).registered ==> Apply(c, l, a).taken == []
  {
    if UpdaterStep(a) {
      ByUpdater(c, l, a);
      hide Apply, Enabled;
    } else if WriterStep(a) {
      hide ApplyWriter, Enabled;
    } else {
      ByAcceptor(c, l, a);
      hide Apply, AckDue, AfterReceive, AfterTryRead;
    }
  }

  /** A step of the reverse direction keeps it. */
  lemma LossInKept(c: Config, m: Link, a: Act, lost: seq<byte>)
    requires ConfigOk(c) && LossIn(c, m, lost) && Enabled(c, m, a) && !Apply(c, m, a).writer.Refused?
    requires c.version == 2 ==> BehindSent(m)
    ensures LossIn(c, Apply(c, m, a), lost)
  {
    hide WireOk, Conserved, UpdatesOk, WindowOk, Without, BehindSent, Apply, Enabled;
    LossPrefix(c, m, a, lost);
    LossBytes(c, m, a, |lost|);
    ReadsOnlyRegistered(c, m, a);
    if c.version == 2 {
      LossWindow(c, m, a);
    }
  }

  lemma LossOkKept(k: Ends, d: Duplex, x: DuplexAct)
    requires EndsOk(k) && LossOk(k, d) && DuplexEnabled(k, d, x)
    ensures LossOk(k, DuplexApply(k, d, x))
  {
    FwdOkKept(k, d, x);
    if Early(d, x) {
      EarlyKeepsLoss(k, d);
    } else {
      NothingBeforeSyn(k, d);
      hide Early, LossIn, FwdOk, RevView, DuplexApply, DuplexEnabled, Apply, Enabled, Frames;
      RevProjects(k, d, x);
      WhatChanges(k, d, x);
      if RevAct(d, x) != [] {
        RevNotRefused(k, d, RevAct(d, x)[0]);
        LossInKept(Back(k), RevView(d), RevAct(d, x)[0], d.lost);
      }
    }
  }

  lemma {:induction false} LossRuns(k: Ends, polite: bool, d: Duplex, acts: seq<DuplexAct>)
    requires EndsOk(k) && LossOk(k, d) && DuplexRuns(k, polite, d, acts)
    ensures LossOk(k, DuplexAfter(k, polite, d, acts))
    decreases |acts|
  {
    hide LossOk, DuplexApply, DuplexEnabled, Polite;
    if acts != [] {
      LossOkKept(k, d, acts[0]);
      LossRuns(k, polite, DuplexApply(k, d, acts[0]), acts[1..]);
    }
  }

  lemma LossReachable(k: Ends, polite: bool, d: Duplex)
    requires EndsOk(k) && DuplexReachable(k, polite, d)
    ensures LossOk(k, d)
  {
    hide PoliteOk, LossOk;
    NewIsOk(k);
    assert LossOk(k, NEW) by {
      LossAtStart(k);
    }
    var acts :| DuplexRuns(k, polite, NEW, acts) && DuplexAfter(k, polite, NEW, acts) == d;
    LossRuns(k, polite, NEW, acts);
  }

  lemma LossAtStart(k: Ends)
    requires EndsOk(k)
    ensures LossOk(k, NEW)
  {
    NewIsOk(k);
    assert RevView(NEW) == START && Without(START, 0) == START;
    hide FwdOk, RevView, Reachable;
  }

  /** Whether the acceptor is polite or not: the opener's bytes arrive in order as ever, and what is lost of the
      acceptor's are the first bytes that it wrote; all the others arrive in order too. A writer is never told that more
      was consumed than it sent. */
  lemma LostAreFirst(k: Ends, polite: bool, d: Duplex)
    requires EndsOk(k) && DuplexReachable(k, polite, d)
    ensures Reachable(Forth(k), FwdView(d))
    ensures var l := d.rev;
      l.written
        == d.lost + (l.taken + Flat(l.buffers) + DataOf(RevView(d).wire) + Pending(l.writer) + Uncut(l.writer))
    ensures !d.rev.writer.Refused?
  {
    hide FwdOk, DuplexReachable, LossIn, Reachable, Flat, DataOf, Pending, Uncut, FwdView, RevView;
    LossReachable(k, polite, d);
    assert Reachable(Forth(k), FwdView(d)) by { FwdIsReachable(k, d); }
    LossInOrder(Back(k), RevView(d), d.lost);
    SameBytes(d);
  }

  lemma FwdIsReachable(k: Ends, d: Duplex)
    requires FwdOk(k, d)
    ensures Reachable(Forth(k), FwdView(d))
  {
    hide Reachable, FwdView;
  }

  lemma SameBytes(d: Duplex)
    ensures var m := RevView(d);
      m.written == d.rev.written && m.taken == d.rev.taken && m.buffers == d.rev.buffers && m.writer == d.rev.writer
  {}

  lemma LossInOrder(c: Config, m: Link, lost: seq<byte>)
    requires LossIn(c, m, lost)
    ensures m.written == lost + (m.taken + Flat(m.buffers) + DataOf(m.wire) + Pending(m.writer) + Uncut(m.writer))
    ensures !m.writer.Refused?
  {
    var l := Without(m, |lost|);
    assert m.written == lost + l.written && l.taken == m.taken && l.buffers == m.buffers && l.wire == m.wire;
    assert !l.writer.Refused? && l.writer == m.writer by { hide Conserved, UpdatesOk, WindowOk; }
    hide WireOk, UpdatesOk, WindowOk, Conserved, Without, Flat, DataOf, Pending, Uncut;
    InOrder(l);
  }

  lemma DuplexStep(k: Ends, polite: bool, d: Duplex, x: DuplexAct) returns (e: Duplex)
    requires DuplexReachable(k, polite, d) && DuplexEnabled(k, d, x) && (polite ==> Polite(d, x))
    ensures e == DuplexApply(k, d, x) && DuplexReachable(k, polite, e)
  {
    var acts :| DuplexRuns(k, polite, NEW, acts) && DuplexAfter(k, polite, NEW, acts) == d;
    DuplexSnoc(k, polite, NEW, acts, x);
    e := DuplexApply(k, d, x);
    hide DuplexEnabled, DuplexApply;
  }

  lemma {:induction false} DuplexSnoc(k: Ends, polite: bool, d: Duplex, acts: seq<DuplexAct>, x: DuplexAct)
    requires DuplexRuns(k, polite, d, acts) && DuplexEnabled(k, DuplexAfter(k, polite, d, acts), x)
    requires polite ==> Polite(DuplexAfter(k, polite, d, acts), x)
    ensures DuplexRuns(k, polite, d, acts + [x])
    ensures DuplexAfter(k, polite, d, acts + [x]) == DuplexApply(k, DuplexAfter(k, polite, d, acts), x)
    decreases |acts|
  {
    hide DuplexEnabled, DuplexApply, Polite;
    if acts != [] {
      DuplexSnoc(k, polite, DuplexApply(k, d, acts[0]), acts[1..], x);
      assert (acts + [x])[1..] == acts[1..] + [x];
    } else {
      assert acts + [x] == [x] && [x][1..] == [];
    }
  }

  /** The SYN has arrived and OpenStream has not returned. */
  lemma SynThere(k: Ends) returns (d: Duplex)
    requires EndsOk(k)
    ensures DuplexReachable(k, false, d) && d.fwd.writer.SynWritten? && d.there == [] && d.here == [] && d.lost == []
    ensures d.fwd.updater.NoUpdate? && d.rev == START.(writer := Idle, recorded := true)
  {
    assert DuplexRuns(k, false, NEW, []) && DuplexAfter(k, false, NEW, []) == NEW;
    d := DuplexStep(k, false, NEW, Forward(SendForward));
    assert d.there == [Syn] && d.here == [];
    d := DuplexStep(k, false, d, HandleThere);
    hide DuplexReachable;
  }

  lemma ReverseStep(k: Ends, d: Duplex, a: Act) returns (e: Duplex)
    requires DuplexReachable(k, false, d) && DuplexEnabled(k, d, Reverse(a))
    ensures DuplexReachable(k, false, e) && e == ApplyReverse(k, d, a)
  {
    hide DuplexReachable, ApplyReverse, DuplexEnabled;
    e := DuplexStep(k, false, d, Reverse(a));
  }

  /** A first write of one byte is ready to be cut: the window is open in version 2, and not looked at in version 1. */
  lemma FirstByteAllowed(c: Config, l: Link)
    requires ConfigOk(c) && l.writer == Top([0]) && l.numWritten == 0 && l.peerConsumed == 0
    requires l.peerWindow == INITIAL_PEER_WINDOW
    ensures c.version == 1 ==> AfterMeasure(c, l) == Cutting([0], [])
    ensures c.version == 2 ==> AfterMeasure(c, l) == Measured([0], 0)
    ensures AfterOpenWindow([0], 0, INITIAL_PEER_WINDOW) == Cutting([0], [])
  {
    SmallI32(0);
    SmallI32(1);
    SmallI32(INITIAL_PEER_WINDOW);
  }

  /** The acceptor writes one byte to a stream that it has just accepted. */
  lemma ByteWritten(k: Ends, d: Duplex) returns (e: Duplex)
    requires EndsOk(k) && DuplexReachable(k, false, d) && d.rev == START.(writer := Idle, recorded := true)
    ensures DuplexReachable(k, false, e)
    ensures e == d.(rev := d.rev.(writer := Cutting([0], []), written := [0]))
  {
    hide DuplexReachable, AfterMeasure, AfterOpenWindow;
    assert [] + [0] == [0];
    e := ReverseStep(k, d, CallWrite([0]));
    assert e == d.(rev := d.rev.(writer := Top([0]), written := [0]));
    e := ByteMeasured(k, e);
  }

  lemma ByteMeasured(k: Ends, d: Duplex) returns (e: Duplex)
    requires EndsOk(k) && DuplexReachable(k, false, d)
    requires d.rev == START.(writer := Top([0]), recorded := true, written := [0])
    ensures DuplexReachable(k, false, e)
    ensures e == d.(rev := d.rev.(writer := Cutting([0], [])))
  {
    hide DuplexReachable, AfterMeasure, AfterOpenWindow;
    FirstByteAllowed(Back(k), RevView(d));
    e := ReverseStep(k, d, Measure);
    if k.version == 2 {
      e := ReverseStep(k, e, OpenWindow);
    }
  }

  /** The byte goes out. */
  lemma ByteSent(k: Ends, d: Duplex) returns (e: Duplex)
    requires EndsOk(k) && DuplexReachable(k, false, d) && d.here == []
    requires d.rev == START.(writer := Cutting([0], []), recorded := true, written := [0])
    ensures DuplexReachable(k, false, e)
    ensures e == d.(rev := d.rev.(writer := Written([0], [], [])), here := [Psh([0])])
  {
    hide DuplexReachable;
    assert [0][..1] == [0] && [0][1..] == [];
    e := ReverseStep(k, d, Cut);
    assert e == d.(rev := d.rev.(writer := Queued([0], [], [])));
    e := ReverseStep(k, e, SendForward);
  }

  /** An acceptor that writes as soon as it has accepted can lose what it writes: the byte arrives before OpenStream has
      entered the stream in its map, and is dropped. */
  lemma LosesEarlyByte(k: Ends) returns (d: Duplex)
    requires EndsOk(k)
    ensures DuplexReachable(k, false, d) && d.lost == d.rev.written == [0]
    ensures d.here == [] && d.rev.taken == [] && d.rev.buffers == []
  {
    d := SynThere(k);
    hide DuplexReachable;
    d := ByteWritten(k, d);
    d := ByteSent(k, d);
    DataOfOne([0]);
    assert [] + [0] == [0];
    hide DataOf, AfterReceive, AfterParse;
    d := DuplexStep(k, false, d, HandleHere);
  }

  /** Nothing that the acceptor writes is ever lost if and only if it writes only after it has read a byte of the
      opener's. */
  lemma NothingIsLostIff(k: Ends, polite: bool)
    requires EndsOk(k)
    ensures polite <==> forall d :: DuplexReachable(k, polite, d) ==> d.lost == []
  {
    hide DuplexReachable;
    if polite {
      forall d | DuplexReachable(k, polite, d)
        ensures d.lost == []
      {
        BothDirections(k, d);
      }
    } else {
      var d := LosesEarlyByte(k);
    }
  }
}
