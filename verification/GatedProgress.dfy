/** The whole system gets on: with tokens in both buckets what is under way always drains away, and with room in the
    window a blocked writer can then send, over the shared wires and under the gates. */
module GatedProgress {
  import opened Arith
  import opened Wire
  import opened StreamLink
  import opened Mux
  import opened Gated
  import R = Receive
  import P = ReceiveProgress

  /** The steps that finish what is under way: frames are read, tokens go back, readers read what is there. */
  predicate Drains(s: Pair, a: PairAct) {
    match a
    case Sys(ReceiveNop(_)) => true
    case Sys(Do(sid, b)) =>
      b.Receive? || b.ParseUpdate? || b.StoreConsumed? || b.StoreWindow? || b.Signal? || b.Ack? || b.SendBack?
      || ((b.TryRead? || b.WakeByEvent?) && sid in s.g.ends && s.g.ends[sid].buffers != [])
    case Sys(_) => false
    case Ping(_) => false
    case _ => true
  }

  /** Every bucket starts with a token. */
  predicate Supplied(max: seq<int>) {
    |max| == 2 && max[0] > 0 && max[1] > 0
  }

  // ---------- Something can always be drained ----------

  lemma StreamFacts(k: Settings, g: System, sid: uint32)
    requires SettingsOk(k) && StreamsOk(k, g) && sid in g.ends
    ensures var l := g.ends[sid];
      ReaderTold(l) && (l.buffers != [] ==> l.registered && !l.reader.AtEof? && |l.buffers[0]| > 0)
  {
    var l := View(g, sid);
    ReachableInv(ConfigOf(k, sid), l);
    hide Conserved, UpdatesOk, WindowOk, SignalOk, AcksOk;
    assert l.buffers != [] ==> |l.buffers[0]| > 0;
  }

  predicate ReaderDrains(l: Link, b: Act) {
    b.Ack? || b.SendBack? || ((b.TryRead? || b.WakeByEvent?) && l.buffers != [])
  }

  lemma ReaderStep(c: Config, l: Link) returns (b: Act)
    requires ReaderTold(l) && (l.buffers != [] ==> l.registered && !l.reader.AtEof?)
    requires l.buffers != [] || l.reader.Acking? || l.reader.AckQueued?
    ensures Enabled(c, l, b) && ReaderDrains(l, b)
  {
    match l.reader
    case Acking(_) => b := Ack;
    case AckQueued(_) => b := SendBack;
    case Ready => b := TryRead(1);
    case Empty => b := WakeByEvent;
    case _ => b := ReadAgain;
  }

  lemma ReaderMay(k: Settings, s: Pair, sid: uint32, b: Act)
    requires SettingsOk(k) && PairShape(s) && sid in s.g.ends && GivingOf(s, sid).Nothing?
    requires Enabled(ConfigOf(k, sid), View(s.g, sid), b) && ReaderDrains(View(s.g, sid), b)
    ensures PairEnabled(k, s, Sys(Do(sid, b))) && Drains(s, Sys(Do(sid, b)))
  {
    hide Enabled, Only, ConfigOf;
  }

  predicate ReaderHasWork(l: Link) {
    l.buffers != [] || l.reader.Acking? || l.reader.AckQueued?
  }

  lemma FreeReaderCanStep(k: Settings, s: Pair, sid: uint32) returns (b: Act)
    requires SettingsOk(k) && PairShape(s) && StreamsOk(k, s.g) && sid in s.g.ends
    requires ReaderHasWork(s.g.ends[sid]) && GivingOf(s, sid).Nothing?
    ensures PairEnabled(k, s, Sys(Do(sid, b))) && Drains(s, Sys(Do(sid, b)))
  {
    StreamFacts(k, s.g, sid);
    hide StreamsOk, ConfigOf, Only, Enabled, ReaderDrains, PairEnabled, Drains;
    b := ReaderStep(ConfigOf(k, sid), View(s.g, sid));
    ReaderMay(k, s, sid, b);
  }

  /** A reader with bytes to read, a report to send or tokens to return can go on. */
  lemma ReaderCanStep(k: Settings, max: seq<int>, s: Pair, sid: uint32) returns (a: PairAct)
    requires SettingsOk(k) && BucketsOk(max) && PairInv(k, max, s) && sid in s.g.ends
    requires ReaderHasWork(s.g.ends[sid]) || !GivingOf(s, sid).Nothing?
    ensures PairEnabled(k, s, a) && Drains(s, a)
  {
    hide StreamsOk, GateOk, ReaderHasWork, Enabled, SysEnabled;
    if GivingOf(s, sid).Owes? {
      a := Return(sid);
    } else if GivingOf(s, sid).Notifying? {
      a := NotifyBucket(sid);
    } else {
      var b := FreeReaderCanStep(k, s, sid);
      a := Sys(Do(sid, b));
    }
  }

  lemma HeldBySomeone(s: Pair, e: End) returns (sid: uint32)
    requires Held(s, e) > 0
    ensures sid in s.g.ends && (s.g.ends[sid].buffers != [] || !GivingOf(s, sid).Nothing?)
  {
    sid := P.SomePart(Holdings(s, e));
    assert Holding(s, sid) > 0;
  }

  lemma ParkedCanStep(k: Settings, max: seq<int>, s: Pair, e: End) returns (a: PairAct)
    requires SettingsOk(k) && BucketsOk(max) && PairInv(k, max, s) && max[e] > 0 && s.gates[e].place.Parked?
    ensures PairEnabled(k, s, a) && Drains(s, a)
  {
    hide StreamsOk, Held;
    assert GateOk(max, s, e);
    if s.gates[e].bucket <= 0 {
      BucketIsExact(max, s, e);
      var sid := HeldBySomeone(s, e);
      a := ReaderCanStep(k, max, s, sid);
    } else if s.gates[e].notify {
      a := WakeReceiver(e);
    } else {
      var sid :| sid in s.giving && Acceptor(sid) == e && s.giving[sid].Notifying?;
      a := NotifyBucket(sid);
    }
  }

  lemma StoringCanStep(k: Settings, s: Pair, e: End) returns (a: PairAct)
    requires SettingsOk(k) && PairShape(s) && StoringOk(s, e) && s.gates[e].place.Storing?
    ensures PairEnabled(k, s, a) && Drains(s, a)
  {
    hide ConfigOf, Only;
    var sid := s.gates[e].place.sid;
    match s.g.ends[sid].updater
    case Parsed(_, _, _) => a := Sys(Do(sid, StoreConsumed));
    case StoredConsumed(_) => a := Sys(Do(sid, StoreWindow));
    case StoredWindow => a := Sys(Do(sid, Signal));
  }

  /** The frame at the head of the wire into e is handled by its stream. */
  lemma PacketCanBeRead(k: Settings, s: Pair, e: End, sid: uint32)
    requires SettingsOk(k) && PairShape(s) && ReceiverIdle(s.g, e) && HeadIs(s.g.wires[1 - e], sid) && sid in s.g.ends
    requires s.gates[e].place.Reading?
    ensures var b := if Acceptor(sid) == e then Receive else ParseUpdate;
      PairEnabled(k, s, Sys(Do(sid, b))) && Drains(s, Sys(Do(sid, b)))
  {
    OnlyHead(s.g.wires[1 - e], sid);
    var l := View(s.g, sid);
    assert Opener(sid) == e ==> l.updater.NoUpdate?;
    hide Only, ConfigOf, ReceiverIdle;
    assert Acceptor(sid) == e ==> l.wire != [];
    assert Acceptor(sid) != e ==> l.back != [];
  }

  /** recvLoop at a frame: whoever it is for, it can be handled. */
  lemma FrameCanBeRead(k: Settings, s: Pair, e: End) returns (a: PairAct)
    requires SettingsOk(k) && PairShape(s) && IdsOk(s.g) && StoringOk(s, e)
    requires s.gates[e].place.Reading? && s.g.wires[1 - e] != []
    ensures PairEnabled(k, s, a) && Drains(s, a)
  {
    var p := s.g.wires[1 - e][0];
    assert ReceiverIdle(s.g, e);
    assert p.Packet? ==> p.sid in s.g.ends;
    hide IdsOk, StoringOk, ReceiverIdle, Enabled, View;
    if p.Nop? {
      a := Sys(ReceiveNop(1 - e));
    } else {
      PacketCanBeRead(k, s, e, p.sid);
      a := Sys(Do(p.sid, if Acceptor(p.sid) == e then Receive else ParseUpdate));
    }
  }

  /** An endpoint is at rest only when it waits for a frame and there is none. */
  lemma GateCanStep(k: Settings, max: seq<int>, s: Pair, e: End) returns (a: PairAct)
    requires SettingsOk(k) && BucketsOk(max) && PairInv(k, max, s) && max[e] > 0
    requires !s.gates[e].place.Reading? || s.g.wires[1 - e] != []
    ensures PairEnabled(k, s, a) && Drains(s, a)
  {
    hide TokensOk, SignalledOk;
    assert GateOk(max, s, e);
    match s.gates[e].place
    case Checking => a := CheckBucket(e);
    case Parked => a := ParkedCanStep(k, max, s, e);
    case Charging(_) => a := Charge(e);
    case Storing(_) => a := StoringCanStep(k, s, e);
    case Reading => a := FrameCanBeRead(k, s, e);
  }

  /** Nothing of this stream is under way. */
  predicate AtRest(s: Pair, sid: uint32)
    requires PairShape(s) && sid in s.g.ends
  {
    var l := View(s.g, sid);
    l.wire == [] && l.back == [] && l.buffers == [] && l.updater.NoUpdate? && !l.reader.Acking? && !l.reader.AckQueued?
  }

  /** With tokens at both ends, as long as anything of any stream is under way something can be drained: frames of other
      streams ahead of it, and tokens that other streams hold, are drained too. */
  lemma CanDrain(k: Settings, max: seq<int>, s: Pair, sid: uint32) returns (a: PairAct)
    requires SettingsOk(k) && BucketsOk(max) && Supplied(max) && PairInv(k, max, s)
    requires sid in s.g.ends && !AtRest(s, sid)
    ensures PairEnabled(k, s, a) && Drains(s, a)
  {
    hide StreamsOk, Drains, PairEnabled;
    var l := s.g.ends[sid];
    if !s.gates[0].place.Reading? || s.g.wires[1] != [] {
      a := GateCanStep(k, max, s, 0);
    } else if !s.gates[1].place.Reading? || s.g.wires[0] != [] {
      a := GateCanStep(k, max, s, 1);
    } else {
      assert GateOk(max, s, Opener(sid));
      hide TokensOk, SignalledOk;
      a := ReaderCanStep(k, max, s, sid);
    }
  }

  // ---------- And only so much is under way ----------

  function UpdaterToil(u: Updater): nat {
    match u
    case NoUpdate => 0
    case Parsed(_, _, _) => 3
    case StoredConsumed(_) => 2
    case StoredWindow => 1
  }

  function ReaderToil(r: Reader): nat {
    if r.Acking? then 7 else if r.AckQueued? then 6 else 0
  }

  function LinkToil(l: Link): nat {
    12 * |Flat(l.buffers)| + 12 * |DataOf(l.wire)| + 4 * |l.wire| + 5 * |l.back|
    + UpdaterToil(l.updater) + ReaderToil(l.reader) + if l.readEvent then 1 else 0
  }

  function GivingToil(p: Giving): nat {
    match p
    case Nothing => 0
    case Owes(_) => 4
    case Notifying => 3
  }

  function PlaceToil(p: Place): nat {
    match p
    case Checking => 1
    case Parked => 0
    case Reading => 0
    case Charging(_) => 2
    case Storing(_) => 1
  }

  function GateToil(g: Gate): nat {
    PlaceToil(g.place) + if g.notify then 2 else 0
  }

  /** NOP frames on a wire. */
  function Nops(ps: seq<Packet>): nat {
    if ps == [] then 0 else (if ps[0].Nop? then 1 else 0) + Nops(ps[1..])
  }

  function StreamToil(s: Pair, sid: uint32): nat
    requires PairShape(s) && sid in s.g.ends
  {
    LinkToil(View(s.g, sid)) + GivingToil(GivingOf(s, sid))
  }

  function StreamToils(s: Pair): map<nat, nat>
    requires PairShape(s)
  {
    map sid | sid in s.g.ends :: StreamToil(s, sid)
  }

  /** What is left to do before everything has drained away. */
  ghost function PairToil(s: Pair): nat
    requires PairShape(s)
  {
    R.Total(StreamToils(s)) + GateToil(s.gates[0]) + GateToil(s.gates[1])
    + 2 * Nops(s.g.wires[0]) + 2 * Nops(s.g.wires[1])
  }

  lemma ToilUpdate(s: Pair, r: Pair, sid: uint32)
    requires PairShape(s) && PairShape(r) && sid in s.g.ends && r.g.ends.Keys == s.g.ends.Keys
    requires forall x <- s.g.ends :: x != sid ==> StreamToil(r, x) == StreamToil(s, x)
    ensures R.Total(StreamToils(r)) == R.Total(StreamToils(s)) - StreamToil(s, sid) + StreamToil(r, sid)
  {
    hide StreamToil, R.Total;
    assert StreamToils(r) == StreamToils(s)[sid := StreamToil(r, sid)];
    R.TotalUpdate(StreamToils(s), sid, StreamToil(r, sid));
  }

  lemma SameToils(s: Pair, r: Pair)
    requires PairShape(s) && PairShape(r) && r.g.ends.Keys == s.g.ends.Keys
    requires forall x <- s.g.ends :: StreamToil(r, x) == StreamToil(s, x)
    ensures R.Total(StreamToils(r)) == R.Total(StreamToils(s))
  {
    hide StreamToil, R.Total;
    assert StreamToils(r) == StreamToils(s);
  }

  // ---------- What one step takes away ----------

  /** The steps of Drains that belong to a stream. */
  predicate DrainStep(l: Link, b: Act) {
    b.Receive? || b.ParseUpdate? || b.StoreConsumed? || b.StoreWindow? || b.Signal? || ReaderDrains(l, b)
  }

  /** What the step leaves for the gate and for the reader to do afterwards. */
  function LeftForGate(l: Link, b: Act): nat {
    if b.Receive? then (if Arriving(l) > 0 then 2 else 1)
    else if b.ParseUpdate? then 1
    else 0
  }

  function LeftForReader(l: Link, b: Act): nat {
    if b.TryRead? then 4 else 0
  }

  lemma ReadToils(c: Config, l: Link, max: nat)
    requires Enabled(c, l, TryRead(max)) && l.buffers != [] && |l.buffers[0]| > 0
    ensures LinkToil(AfterTryRead(c, l, max)) + 4 < LinkToil(l)
  {
    ReadTakesBytes(c, l, max);
    hide Flat, DataOf, AckDue, U32;
  }

  lemma ReceiveToils(l: Link)
    requires l.wire != []
    ensures LinkToil(AfterReceive(l)) + LeftForGate(l, Receive) < LinkToil(l)
  {
    ReceivePutsBytes(l);
    var m := AfterReceive(l);
    assert |DataOf(l.wire)| == |DataOf(m.wire)| + if l.wire[0].Psh? then |l.wire[0].data| else 0;
    hide Flat, DataOf;
  }

  lemma UpdaterToils(c: Config, l: Link, b: Act)
    requires Enabled(c, l, b) && UpdaterStep(b)
    ensures LinkToil(ApplyUpdater(c, l, b)) + LeftForGate(l, b) < LinkToil(l)
  {
    hide Flat, DataOf;
  }

  lemma AcceptorToils(c: Config, l: Link, b: Act)
    requires Enabled(c, l, b) && (b.Receive? || ReaderDrains(l, b)) && (l.buffers != [] ==> |l.buffers[0]| > 0)
    ensures LinkToil(ApplyAcceptor(c, l, b)) + LeftForGate(l, b) + LeftForReader(l, b) < LinkToil(l)
  {
    hide Flat, DataOf, AfterReceive, AfterTryRead, LinkToil;
    if b.Receive? {
      ReceiveToils(l);
    } else if b.TryRead? {
      ReadToils(c, l, b.max);
    } else {
      SmallToils(c, l, b);
    }
  }

  lemma SmallToils(c: Config, l: Link, b: Act)
    requires Enabled(c, l, b) && (b.Ack? || b.SendBack? || b.WakeByEvent?)
    ensures LinkToil(ApplyAcceptor(c, l, b)) < LinkToil(l)
  {
    hide Flat, DataOf;
  }

  /** A step of one stream takes away more than it leaves for others to do. */
  lemma LinkToils(c: Config, l: Link, b: Act)
    requires Enabled(c, l, b) && DrainStep(l, b) && (l.buffers != [] ==> |l.buffers[0]| > 0)
    ensures LinkToil(Apply(c, l, b)) + LeftForGate(l, b) + LeftForReader(l, b) < LinkToil(l)
  {
    hide Enabled, Apply, LinkToil, LeftForGate;
    if UpdaterStep(b) {
      ByUpdater(c, l, b);
      UpdaterToils(c, l, b);
    } else {
      ByAcceptor(c, l, b);
      AcceptorToils(c, l, b);
    }
  }

  lemma {:induction false} NopsConcat(ps: seq<Packet>, p: Packet)
    ensures Nops(ps + [p]) == Nops(ps) + if p.Nop? then 1 else 0
  {
    if ps == [] {
      assert ps + [p] == [p] && [p][1..] == [];
    } else {
      NopsConcat(ps[1..], p);
      assert (ps + [p])[1..] == ps[1..] + [p];
    }
  }

  lemma DoKeepsNops(k: Settings, g: System, sid: uint32, b: Act, e: End)
    requires SettingsOk(k) && Shape(g) && SysEnabled(k, g, Do(sid, b))
    ensures Nops(SysApply(k, g, Do(sid, b)).wires[e]) == Nops(g.wires[e])
  {
    WiresAfterDo(k, g, sid, b, e);
    StepOnWires(ConfigOf(k, sid), View(g, sid), b);
    hide SysApply, Apply, Enabled, ReceiverIdle, View;
    var w := g.wires[e];
    if b.SendForward? && e == Opener(sid) {
      NopsConcat(w, Packet(sid, Outgoing(g.ends[sid].writer)));
    } else if b.SendBack? && e != Opener(sid) {
      NopsConcat(w, Packet(sid, Upd(g.ends[sid].reader.consumed, ConfigOf(k, sid).streamBuf, |g.ends[sid].taken|)));
    }
  }

  lemma GatesAfterDo(s: Pair, sid: uint32, b: Act)
    requires PairShape(s) && sid in s.g.ends && StoringKnown(s, 0, sid, b) && StoringKnown(s, 1, sid, b)
    ensures GateToil(GateAfterDo(s, sid, b, 0)) + GateToil(GateAfterDo(s, sid, b, 1))
      <= GateToil(s.gates[0]) + GateToil(s.gates[1]) + LeftForGate(View(s.g, sid), b)
  {
    hide View, Arriving;
  }

  lemma ViewToils(k: Settings, s: Pair, sid: uint32, b: Act)
    requires SettingsOk(k) && PairShape(s) && StreamsOk(k, s.g)
    requires PairEnabled(k, s, Sys(Do(sid, b))) && Drains(s, Sys(Do(sid, b)))
    ensures var c, l := ConfigOf(k, sid), View(s.g, sid);
      LinkToil(Apply(c, l, b)) + LeftForGate(l, b) + LeftForReader(l, b) < LinkToil(l)
  {
    StreamFacts(k, s.g, sid);
    hide StreamsOk, LinkToil, LeftForGate, Enabled, Apply;
    LinkToils(ConfigOf(k, sid), View(s.g, sid), b);
  }

  /** The stream of the step has less to do, whatever its reader now has to give back. */
  lemma OwnToil(k: Settings, s: Pair, sid: uint32, b: Act)
    requires SettingsOk(k) && PairShape(s) && StreamsOk(k, s.g)
    requires PairEnabled(k, s, Sys(Do(sid, b))) && Drains(s, Sys(Do(sid, b)))
    ensures var r := PairApply(k, s, Sys(Do(sid, b)));
      sid in r.g.ends && StreamToil(r, sid) + LeftForGate(View(s.g, sid), b) < StreamToil(s, sid)
  {
    ViewToils(k, s, sid, b);
    DoProjects(k, s.g, sid, b);
    DoOnGates(k, s, sid, b, 0);
    assert b.TryRead? ==> GivingOf(s, sid).Nothing?;
    hide StreamsOk, LinkToil, Apply, Enabled, View, PairApply, PairEnabled, GateAfterDo, LeftForGate, SysEnabled;
    hide ReadCount;
  }

  /** No other stream has more or less to do. */
  lemma OtherToils(k: Settings, s: Pair, sid: uint32, b: Act, x: uint32)
    requires SettingsOk(k) && PairShape(s) && PairEnabled(k, s, Sys(Do(sid, b))) && x in s.g.ends && x != sid
    ensures var r := PairApply(k, s, Sys(Do(sid, b)));
      x in r.g.ends && StreamToil(r, x) == StreamToil(s, x)
  {
    DoLeavesOthers(k, s.g, sid, b, x);
    DoOnGates(k, s, sid, b, 0);
    hide LinkToil, Apply, Enabled, View, PairApply, PairEnabled, GateAfterDo, SysEnabled, ReadCount;
  }

  lemma StreamsAfterDo(k: Settings, s: Pair, sid: uint32, b: Act)
    requires SettingsOk(k) && PairShape(s) && StreamsOk(k, s.g) && sid in s.g.ends
    requires PairEnabled(k, s, Sys(Do(sid, b))) && Drains(s, Sys(Do(sid, b)))
    ensures R.Total(StreamToils(PairApply(k, s, Sys(Do(sid, b))))) + LeftForGate(View(s.g, sid), b)
      < R.Total(StreamToils(s))
  {
    hide StreamsOk, PairEnabled, PairApply, Drains, StreamToil, LeftForGate, GateAfterDo, R.Total, StreamToils, View;
    var r := PairApply(k, s, Sys(Do(sid, b)));
    DoOnGates(k, s, sid, b, 0);
    OwnToil(k, s, sid, b);
    forall x | x in s.g.ends && x != sid
      ensures StreamToil(r, x) == StreamToil(s, x)
    {
      OtherToils(k, s, sid, b, x);
    }
    ToilUpdate(s, r, sid);
  }

  lemma GatesToil(k: Settings, max: seq<int>, s: Pair, sid: uint32, b: Act)
    requires SettingsOk(k) && BucketsOk(max) && PairInv(k, max, s) && PairEnabled(k, s, Sys(Do(sid, b)))
    ensures sid in s.g.ends
    ensures var r := PairApply(k, s, Sys(Do(sid, b)));
      && r.g.wires == SysApply(k, s.g, Do(sid, b)).wires
      && GateToil(r.gates[0]) + GateToil(r.gates[1])
         <= GateToil(s.gates[0]) + GateToil(s.gates[1]) + LeftForGate(View(s.g, sid), b)
  {
    assert GateOk(max, s, 0) && GateOk(max, s, 1);
    hide StreamsOk, TokensOk, SignalledOk, StoringOk, SysEnabled, SysApply, StoringKnown, LeftForGate, GateAfterDo;
    hide View;
    DoPlaces(k, s, sid, b, 0);
    DoPlaces(k, s, sid, b, 1);
    GatesAfterDo(s, sid, b);
    DoOnGates(k, s, sid, b, 0);
    DoOnGates(k, s, sid, b, 1);
    hide PairApply, GateToil;
  }

  lemma DoToils(k: Settings, max: seq<int>, s: Pair, sid: uint32, b: Act)
    requires SettingsOk(k) && BucketsOk(max) && PairInv(k, max, s)
    requires PairEnabled(k, s, Sys(Do(sid, b))) && Drains(s, Sys(Do(sid, b)))
    ensures PairToil(PairApply(k, s, Sys(Do(sid, b)))) < PairToil(s)
  {
    GatesToil(k, max, s, sid, b);
    assert SysEnabled(k, s.g, Do(sid, b));
    hide StreamsOk, GateOk, PairEnabled, PairApply, SysEnabled, Drains, SysApply, LeftForGate, Nops, GateToil, View;
    StreamsAfterDo(k, s, sid, b);
    DoKeepsNops(k, s.g, sid, b, 0);
    DoKeepsNops(k, s.g, sid, b, 1);
    hide R.Total, StreamToils;
  }

  lemma NopToils(k: Settings, s: Pair, e: End)
    requires SettingsOk(k) && PairShape(s) && PairEnabled(k, s, Sys(ReceiveNop(e)))
    ensures PairToil(PairApply(k, s, Sys(ReceiveNop(e)))) < PairToil(s)
  {
    var r := PairApply(k, s, Sys(ReceiveNop(e)));
    forall x | x in s.g.ends
      ensures StreamToil(r, x) == StreamToil(s, x)
    {
      NopKeepsView(k, s.g, ReceiveNop(e), x);
      hide View;
    }
    hide StreamToil;
    SameToils(s, r);
    hide R.Total, StreamToils, ReceiverIdle;
  }

  lemma GateStepToils(k: Settings, s: Pair, a: PairAct)
    requires SettingsOk(k) && PairShape(s) && PairEnabled(k, s, a)
    requires a.CheckBucket? || a.WakeReceiver? || a.Charge?
    ensures PairToil(PairApply(k, s, a)) < PairToil(s)
  {
    var r := PairApply(k, s, a);
    hide I32, LinkToil;
    SameToils(s, r);
    hide R.Total, StreamToils, Nops;
  }

  /** Only what one reader has to give back has changed, and one gate. */
  lemma GivingMoves(s: Pair, r: Pair, sid: uint32)
    requires PairShape(s) && PairShape(r) && r.g == s.g && sid in s.g.ends
    requires forall x <- s.g.ends :: x != sid ==> GivingOf(r, x) == GivingOf(s, x)
    requires GivingToil(GivingOf(r, sid)) + GateToil(r.gates[0]) + GateToil(r.gates[1])
      < GivingToil(GivingOf(s, sid)) + GateToil(s.gates[0]) + GateToil(s.gates[1])
    ensures PairToil(r) < PairToil(s)
  {
    hide LinkToil, View, GivingOf, GivingToil, GateToil;
    ToilUpdate(s, r, sid);
    hide R.Total, StreamToils, Nops;
  }

  lemma ReturnToils(k: Settings, s: Pair, sid: uint32)
    requires SettingsOk(k) && PairShape(s) && PairEnabled(k, s, Return(sid)) && sid in s.g.ends
    ensures PairToil(PairApply(k, s, Return(sid))) < PairToil(s)
  {
    hide I32, PairToil;
    GivingMoves(s, PairApply(k, s, Return(sid)), sid);
  }

  lemma NotifyToils(k: Settings, s: Pair, sid: uint32)
    requires SettingsOk(k) && PairShape(s) && PairEnabled(k, s, NotifyBucket(sid)) && sid in s.g.ends
    ensures PairToil(PairApply(k, s, NotifyBucket(sid))) < PairToil(s)
  {
    hide PairToil;
    GivingMoves(s, PairApply(k, s, NotifyBucket(sid)), sid);
  }

  lemma DrainToils(k: Settings, max: seq<int>, s: Pair, a: PairAct)
    requires SettingsOk(k) && BucketsOk(max) && PairInv(k, max, s) && PairEnabled(k, s, a) && Drains(s, a)
    ensures PairToil(PairApply(k, s, a)) < PairToil(s)
  {
    hide StreamsOk, GateOk, PairApply, PairToil;
    match a
    case Sys(Do(sid, b)) =>
      hide Drains, PairEnabled;
      DoToils(k, max, s, sid, b);
    case Sys(ReceiveNop(e)) =>
      hide PairEnabled;
      NopToils(k, s, e);
    case Return(sid) => ReturnToils(k, s, sid);
    case NotifyBucket(sid) => NotifyToils(k, s, sid);
    case _ => GateStepToils(k, s, a);
  }

  // ---------- Draining to rest ----------

  ghost predicate DrainingRun(k: Settings, s: Pair, acts: seq<PairAct>)
    requires SettingsOk(k) && PairShape(s)
    decreases |acts|
  {
    acts == []
    || (PairEnabled(k, s, acts[0]) && Drains(s, acts[0]) && DrainingRun(k, PairApply(k, s, acts[0]), acts[1..]))
  }

  lemma {:induction false} DrainingIsRun(k: Settings, s: Pair, acts: seq<PairAct>)
    requires SettingsOk(k) && PairShape(s) && DrainingRun(k, s, acts)
    ensures PairRuns(k, s, acts)
    decreases |acts|
  {
    hide PairEnabled, PairApply, Drains;
    if acts != [] {
      DrainingIsRun(k, PairApply(k, s, acts[0]), acts[1..]);
    }
  }

  lemma DrainLeavesWriters(k: Settings, s: Pair, a: PairAct, sid: uint32)
    requires SettingsOk(k) && PairShape(s) && PairEnabled(k, s, a) && Drains(s, a) && sid in s.g.ends
    ensures var g := PairApply(k, s, a).g;
      sid in g.ends && g.ends[sid].writer == s.g.ends[sid].writer && g.ends[sid].written == s.g.ends[sid].written
  {
    if a.Sys? && a.s.Do? {
      DoOnGates(k, s, a.s.sid, a.s.a, 0);
      if a.s.sid == sid {
        OthersLeaveWriter(ConfigOf(k, sid), View(s.g, sid), a.s.a) by { hide Enabled, Apply; }
      }
      hide Enabled, Apply, PairApply, PairEnabled, GateAfterDo, GivingAfterDo;
    } else {
      hide I32;
    }
  }

  /** In whatever order things are drained: at most PairToil(s) steps, and with tokens at both ends they do not run out
      before everything of every stream that is open is at rest. */
  lemma {:induction false} MustDrain(k: Settings, max: seq<int>, s: Pair, acts: seq<PairAct>, sid: uint32)
    requires SettingsOk(k) && BucketsOk(max) && PairInv(k, max, s) && DrainingRun(k, s, acts) && sid in s.g.ends
    ensures |acts| <= PairToil(s) && PairRuns(k, s, acts)
    ensures var r := PairAfter(k, s, acts);
      && sid in r.g.ends
      && (Supplied(max) ==> AtRest(r, sid) || exists a :: PairEnabled(k, r, a) && Drains(r, a))
    decreases |acts|
  {
    hide BucketsOk, StreamsOk, GateOk, GivingOk, PairEnabled, PairApply, Drains, PairToil, AtRest, SettingsOk;
    DrainingIsRun(k, s, acts);
    if acts == [] {
      if Supplied(max) && !AtRest(s, sid) {
        var a := CanDrain(k, max, s, sid);
      }
    } else {
      DrainToils(k, max, s, acts[0]);
      PairInvKept(k, max, s, acts[0]);
      DrainLeavesWriters(k, s, acts[0], sid);
      MustDrain(k, max, PairApply(k, s, acts[0]), acts[1..], sid);
    }
  }

  lemma {:induction false} DrainsOut(k: Settings, max: seq<int>, s: Pair, sid: uint32) returns (acts: seq<PairAct>)
    requires SettingsOk(k) && BucketsOk(max) && Supplied(max) && PairInv(k, max, s) && sid in s.g.ends
    ensures DrainingRun(k, s, acts) && PairRuns(k, s, acts)
    ensures var r := PairAfter(k, s, acts);
      && PairInv(k, max, r) && sid in r.g.ends && AtRest(r, sid)
      && r.g.ends[sid].writer == s.g.ends[sid].writer && r.g.ends[sid].written == s.g.ends[sid].written
    decreases PairToil(s)
  {
    hide BucketsOk, StreamsOk, GateOk, GivingOk, PairEnabled, PairApply, Drains, PairToil, AtRest, SettingsOk, Supplied;
    acts := [];
    if !AtRest(s, sid) {
      var a := CanDrain(k, max, s, sid);
      DrainToils(k, max, s, a);
      PairInvKept(k, max, s, a);
      DrainLeavesWriters(k, s, a, sid);
      var rest := DrainsOut(k, max, PairApply(k, s, a), sid);
      acts := [a] + rest;
      assert acts[1..] == rest;
    }
  }

  // ---------- A stream's writer moves on its own ----------

  function Lifted(sid: uint32, acts: seq<Act>): (r: seq<PairAct>)
    ensures |r| == |acts| && forall i :: 0 <= i < |r| ==> r[i] == Sys(Do(sid, acts[i]))
  {
    seq(|acts|, i requires 0 <= i < |acts| => Sys(Do(sid, acts[i])))
  }

  lemma WriterMay(k: Settings, s: Pair, sid: uint32, b: Act)
    requires SettingsOk(k) && PairShape(s) && sid in s.g.ends && WriterStep(b)
    requires Enabled(ConfigOf(k, sid), View(s.g, sid), b)
    ensures PairEnabled(k, s, Sys(Do(sid, b)))
    ensures var r := PairApply(k, s, Sys(Do(sid, b)));
      && sid in r.g.ends && View(r.g, sid) == Apply(ConfigOf(k, sid), View(s.g, sid), b)
      && r.gates == s.gates && r.giving == s.giving
  {
    hide Enabled, Apply, View, SysApply, ConfigOf;
    assert PairEnabled(k, s, Sys(Do(sid, b)));
    DoProjects(k, s.g, sid, b);
    DoOnGates(k, s, sid, b, 0);
    DoOnGates(k, s, sid, b, 1);
  }

  ghost predicate WriterSteps(acts: seq<Act>) {
    forall b <- acts :: WriterStep(b)
  }

  /** No gate holds a writer back. */
  lemma {:induction false} WritersRun(k: Settings, s: Pair, sid: uint32, acts: seq<Act>)
    requires SettingsOk(k) && PairShape(s) && sid in s.g.ends && WriterSteps(acts)
    requires RunsFrom(ConfigOf(k, sid), View(s.g, sid), acts)
    ensures PairRuns(k, s, Lifted(sid, acts))
    ensures var r := PairAfter(k, s, Lifted(sid, acts));
      && sid in r.g.ends && View(r.g, sid) == After(ConfigOf(k, sid), View(s.g, sid), acts)
      && r.gates == s.gates && r.giving == s.giving
    decreases |acts|
  {
    hide Enabled, Apply, View, PairEnabled, PairApply, WriterStep, ConfigOf, SettingsOk;
    if acts != [] {
      assert acts[0] in acts && forall b <- acts[1..] :: b in acts;
      WriterMay(k, s, sid, acts[0]);
      WritersRun(k, PairApply(k, s, Sys(Do(sid, acts[0]))), sid, acts[1..]);
      assert Lifted(sid, acts)[1..] == Lifted(sid, acts[1..]);
    }
  }

  // ---------- A blocked writer sends ----------

  lemma RunsCons(c: Config, l: Link, a: Act, rest: seq<Act>)
    requires Enabled(c, l, a) && RunsFrom(c, Apply(c, l, a), rest)
    ensures RunsFrom(c, l, [a] + rest) && After(c, l, [a] + rest) == After(c, Apply(c, l, a), rest)
  {
    hide Enabled, Apply;
    assert ([a] + rest)[1..] == rest;
  }

  lemma CutSends(c: Config, l: Link)
    requires c.frameSize > 0 && l.writer.Cutting? && l.writer.bts != []
    ensures RunsFrom(c, l, [Cut]) && Sent(After(c, l, [Cut])) > Sent(l)
  {
    var m := Apply(c, l, Cut);
    assert [Cut][1..] == [] && RunsFrom(c, m, []) && After(c, l, [Cut]) == m;
    UncutAfterCut(c.frameSize, l.writer.bts, l.writer.more);
    hide Apply;
  }

  lemma OpenWindowSends(c: Config, l: Link)
    requires ConfigOk(c) && c.version == 2 && l.writer.Measured? && 0 < |l.writer.b| < TWO_31
    requires 0 <= l.writer.inflight <= MaxWindow(c) && l.writer.inflight < l.peerWindow
    requires l.peerWindow == INITIAL_PEER_WINDOW || l.peerWindow == c.streamBuf
    ensures RunsFrom(c, l, [OpenWindow, Cut]) && Sent(After(c, l, [OpenWindow, Cut])) > Sent(l)
  {
    OpenWindowSplits(c, l.writer.b, l.writer.inflight, l.peerWindow);
    UncutAfterOpenWindow(l.writer.b, l.writer.inflight, l.peerWindow);
    hide AfterOpenWindow;
    var m := Apply(c, l, OpenWindow);
    assert m.writer.bts != [] && Sent(m) == Sent(l);
    CutSends(c, m);
    hide Apply, Enabled, RunsFrom;
    assert Enabled(c, l, OpenWindow);
    RunsCons(c, l, OpenWindow, [Cut]);
    assert [OpenWindow] + [Cut] == [OpenWindow, Cut];
  }

  lemma MeasureSends(c: Config, l: Link)
    requires ConfigOk(c) && c.version == 2 && Inv(c, l) && l.writer.Top? && l.writer.b != []
    requires Sent(l) - l.acked < l.peerWindow
    ensures RunsFrom(c, l, [Measure, OpenWindow, Cut]) && Sent(After(c, l, [Measure, OpenWindow, Cut])) > Sent(l)
  {
    AckedIsBehind(c, l);
    MeasureKeepsWindow(c, l);
    assert Enabled(c, l, Measure);
    var m := Apply(c, l, Measure);
    assert m == l.(writer := Measured(l.writer.b, Sent(l) - l.acked)) && Sent(m) == Sent(l);
    hide Apply, Enabled, Conserved, WireOk, SignalOk, AcksOk, RunsFrom, After, Uncut;
    OpenWindowSends(c, m);
    RunsCons(c, l, Measure, [OpenWindow, Cut]);
    assert [Measure] + [OpenWindow, Cut] == [Measure, OpenWindow, Cut];
  }

  const ROUND := [TakeUpdate, Measure, OpenWindow, Cut]

  /** With all at rest and room in the window, one round of its loop makes a blocked writer send. */
  lemma RestedWriterSends(c: Config, l: Link)
    requires ConfigOk(c) && c.version == 2 && Reachable(c, l) && Drained(l) && l.writer.Blocked? && Roomy(c)
    ensures RunsFrom(c, l, ROUND) && Sent(After(c, l, ROUND)) > Sent(l)
  {
    DrainedMeansOpen(c, l);
    ReachableInv(c, l);
    assert l.writer.more != [] by {
      hide Conserved, WireOk, UpdatesOk, SignalOk, AcksOk;
    }
    hide Inv, Reachable, Drained, Roomy, RunsFrom, After;
    InvKept(c, l, TakeUpdate);
    var m := Apply(c, l, TakeUpdate);
    assert m == l.(writer := Top(l.writer.more), chUpdate := false) && Sent(m) == Sent(l);
    hide Apply, Enabled;
    assert Enabled(c, l, TakeUpdate);
    MeasureSends(c, m);
    RunsCons(c, l, TakeUpdate, [Measure, OpenWindow, Cut]);
    assert [TakeUpdate] + [Measure, OpenWindow, Cut] == ROUND;
  }

  /** The steps that both endpoints take by themselves: no stream is opened, written or closed, and no timer fires. */
  predicate PairOwn(a: PairAct) {
    match a
    case Sys(OpenStream(_)) => false
    case Sys(SendNop(_)) => false
    case Sys(Do(_, b)) => !b.CallWrite? && !b.CallClose?
    case Ping(_) => false
    case _ => true
  }

  ghost predicate AllOwn(acts: seq<PairAct>) {
    forall a <- acts :: PairOwn(a)
  }

  /** Some run of the two endpoints' own steps sends a byte of the stream. */
  ghost predicate CanSend(k: Settings, s: Pair, sid: uint32)
    requires SettingsOk(k) && PairShape(s) && sid in s.g.ends
  {
    exists acts :: AllOwn(acts) && PairRuns(k, s, acts)
      && sid in PairAfter(k, s, acts).g.ends && Sent(PairAfter(k, s, acts).g.ends[sid]) > Sent(s.g.ends[sid])
  }

  lemma {:induction false} PairConcat(k: Settings, s: Pair, acts: seq<PairAct>, more: seq<PairAct>)
    requires SettingsOk(k) && PairShape(s) && PairRuns(k, s, acts) && PairRuns(k, PairAfter(k, s, acts), more)
    ensures PairRuns(k, s, acts + more)
    ensures PairAfter(k, s, acts + more) == PairAfter(k, PairAfter(k, s, acts), more)
    decreases |acts|
  {
    hide PairEnabled, PairApply;
    if acts != [] {
      PairConcat(k, PairApply(k, s, acts[0]), acts[1..], more);
      assert (acts + more)[1..] == acts[1..] + more;
    } else {
      assert acts + more == more;
    }
  }

  lemma {:induction false} DrainsAreOwn(k: Settings, s: Pair, acts: seq<PairAct>)
    requires SettingsOk(k) && PairShape(s) && DrainingRun(k, s, acts)
    ensures AllOwn(acts)
    decreases |acts|
  {
    hide PairEnabled, PairApply;
    if acts != [] {
      DrainsAreOwn(k, PairApply(k, s, acts[0]), acts[1..]);
    }
  }

  lemma RestIsDrained(k: Settings, s: Pair, sid: uint32)
    requires SettingsOk(k) && PairShape(s) && StreamsOk(k, s.g) && sid in s.g.ends
    requires AtRest(s, sid) && s.g.ends[sid].writer.Blocked?
    ensures Reachable(ConfigOf(k, sid), View(s.g, sid)) && Drained(View(s.g, sid))
    ensures View(s.g, sid).writer.Blocked? && Sent(View(s.g, sid)) == Sent(s.g.ends[sid])
  {
    hide Reachable, Only;
  }

  lemma RoundIsOwn(sid: uint32)
    ensures WriterSteps(ROUND) && AllOwn(Lifted(sid, ROUND))
  {
    assert forall b <- ROUND :: WriterStep(b) && !b.CallWrite? && !b.CallClose?;
  }

  lemma OwnConcat(a: seq<PairAct>, b: seq<PairAct>)
    requires AllOwn(a) && AllOwn(b)
    ensures AllOwn(a + b)
  {
    hide PairOwn;
  }

  lemma RestedCanSend(k: Settings, s: Pair, sid: uint32)
    requires SettingsOk(k) && k.version == 2 && PairShape(s) && StreamsOk(k, s.g) && sid in s.g.ends
    requires AtRest(s, sid) && s.g.ends[sid].writer.Blocked? && Roomy(ConfigOf(k, sid))
    ensures PairRuns(k, s, Lifted(sid, ROUND))
    ensures var r := PairAfter(k, s, Lifted(sid, ROUND));
      sid in r.g.ends && Sent(r.g.ends[sid]) > Sent(s.g.ends[sid])
  {
    hide StreamsOk, AtRest, View, Roomy, Sent, Drained, Reachable, PairRuns, PairAfter, RunsFrom, After;
    RestIsDrained(k, s, sid);
    RestedWriterSends(ConfigOf(k, sid), View(s.g, sid));
    RoundIsOwn(sid);
    WritersRun(k, s, sid, ROUND);
    ViewSent(PairAfter(k, s, Lifted(sid, ROUND)).g, sid);
  }

  lemma DrainThenSend(k: Settings, s: Pair, sid: uint32, acts: seq<PairAct>)
    requires SettingsOk(k) && k.version == 2 && PairShape(s) && sid in s.g.ends && s.g.ends[sid].writer.Blocked?
    requires Roomy(ConfigOf(k, sid)) && AllOwn(acts) && PairRuns(k, s, acts)
    requires var r := PairAfter(k, s, acts);
      && StreamsOk(k, r.g) && sid in r.g.ends && AtRest(r, sid)
      && r.g.ends[sid].writer == s.g.ends[sid].writer && r.g.ends[sid].written == s.g.ends[sid].written
    ensures CanSend(k, s, sid)
  {
    hide StreamsOk, AtRest, Roomy, Sent, AllOwn, PairRuns, PairAfter, SettingsOk, ConfigOf;
    var r := PairAfter(k, s, acts);
    SameSent(s.g.ends[sid], r.g.ends[sid]);
    RestedCanSend(k, r, sid);
    PairConcat(k, s, acts, Lifted(sid, ROUND));
    RoundIsOwn(sid);
    OwnConcat(acts, Lifted(sid, ROUND));
  }

  /** With tokens at both ends and room in its window, a blocked writer can send, whatever else is under way: drain it
      all, and then let the writer go round its loop. */
  lemma RoomSuffices(k: Settings, max: seq<int>, s: Pair, sid: uint32)
    requires SettingsOk(k) && k.version == 2 && BucketsOk(max) && Supplied(max) && PairReachable(k, max, s)
    requires PairShape(s) && sid in s.g.ends && s.g.ends[sid].writer.Blocked? && Roomy(ConfigOf(k, sid))
    ensures CanSend(k, s, sid)
  {
    PairReachableInv(k, max, s);
    hide PairReachable, BucketsOk, StreamsOk, GateOk, GivingOk, AtRest, Supplied, Roomy, Sent, AllOwn;
    hide PairRuns, PairAfter, DrainingRun, SettingsOk, ConfigOf, CanSend;
    var acts := DrainsOut(k, max, s, sid);
    DrainsAreOwn(k, s, acts);
    DrainThenSend(k, s, sid, acts);
  }

  lemma SameSent(l: Link, m: Link)
    requires m.writer == l.writer && m.written == l.written
    ensures Sent(m) == Sent(l)
  {}

  lemma ViewSent(g: System, sid: uint32)
    requires Shape(g) && sid in g.ends
    ensures Sent(View(g, sid)) == Sent(g.ends[sid])
  {}
}
