/** Two endpoints with any number of streams over one connection. Both wires and both recvLoops are shared; every
    stream, looked at on its own, behaves as StreamLink says. */
module Mux {
  import opened Arith
  import opened Wire
  import opened StreamLink
  import Deadlock

  /** A frame on the connection; NOP frames belong to no stream. */
  datatype Packet = Packet(sid: uint32, msg: Msg) | Nop

  /** Endpoint 1 is the client, 0 the server; a stream id has the parity of its opener. Of each stream, ends holds
      the state at the two endpoints, and wires[e] what endpoint e has sent and the other has not handled. */
  datatype System = System(ends: map<uint32, Link>, wires: seq<seq<Packet>>, nextId: seq<uint32>, goAway: seq<bool>)

  datatype Settings = Settings(version: int, frameSize: seq<nat>, streamBuf: seq<uint32>)

  predicate SettingsOk(k: Settings) {
    && |k.frameSize| == 2 && |k.streamBuf| == 2
    && ConfigOk(Config(k.version, k.frameSize[0], k.streamBuf[1]))
    && ConfigOk(Config(k.version, k.frameSize[1], k.streamBuf[0]))
  }

  type End = e: int | 0 <= e < 2

  function Opener(sid: uint32): End {
    sid % 2
  }

  function Acceptor(sid: uint32): End {
    1 - Opener(sid)
  }

  /** A stream is cut by its opener's frame size and reported by its acceptor's buffer size. */
  function ConfigOf(k: Settings, sid: uint32): (c: Config)
    requires SettingsOk(k)
    ensures ConfigOk(c) && c.version == k.version
  {
    Config(k.version, k.frameSize[Opener(sid)], k.streamBuf[Acceptor(sid)])
  }

  const NOTHING := System(map[], [[], []], [0, 1], [false, false])

  predicate Shape(g: System) {
    |g.wires| == 2 && |g.nextId| == 2 && |g.goAway| == 2
  }

  // ---------- One stream of many ----------

  /** The frames of one stream, in order. */
  function Only(ps: seq<Packet>, sid: uint32): seq<Msg> {
    if ps == [] then []
    else (if ps[0].Packet? && ps[0].sid == sid then [ps[0].msg] else []) + Only(ps[1..], sid)
  }

  /** What the system looks like to one stream. */
  function View(g: System, sid: uint32): Link
    requires Shape(g) && sid in g.ends
  {
    g.ends[sid].(wire := Only(g.wires[Opener(sid)], sid), back := Only(g.wires[Acceptor(sid)], sid))
  }

  // ---------- The steps ----------

  datatype SysAct =
    | OpenStream(e: End)
    | Do(sid: uint32, a: Act)
    | SendNop(e: End)       // keepalive
    | ReceiveNop(e: End)    // the endpoint that sent it

  /** The recvLoop of e is not in the middle of storing an update. */
  predicate ReceiverIdle(g: System, e: End) {
    forall sid <- g.ends :: Opener(sid) == e ==> g.ends[sid].updater.NoUpdate?
  }

  predicate HeadIs(ps: seq<Packet>, sid: uint32) {
    ps != [] && ps[0].Packet? && ps[0].sid == sid
  }

  predicate SysEnabled(k: Settings, g: System, s: SysAct)
    requires SettingsOk(k) && Shape(g)
  {
    match s
    case OpenStream(e) => !g.goAway[e]
    case Do(sid, a) =>
      && sid in g.ends && Enabled(ConfigOf(k, sid), View(g, sid), a)
      && (a.Receive? ==> HeadIs(g.wires[Opener(sid)], sid) && ReceiverIdle(g, Acceptor(sid)))
      && (a.ParseUpdate? ==> HeadIs(g.wires[Acceptor(sid)], sid) && ReceiverIdle(g, Opener(sid)))
    case SendNop(e) => true
    case ReceiveNop(e) => g.wires[e] != [] && g.wires[e][0].Nop? && ReceiverIdle(g, 1 - e)
  }

  /** What a stream's step does to the wire of endpoint e. */
  function WireAfter(k: Settings, g: System, sid: uint32, a: Act, e: End): seq<Packet>
    requires SettingsOk(k) && Shape(g) && SysEnabled(k, g, Do(sid, a))
  {
    var w := g.wires[e];
    if e == Opener(sid) then
      if a.SendForward? then w + [Packet(sid, Outgoing(g.ends[sid].writer))]
      else if a.Receive? then w[1..]
      else w
    else
      if a.SendBack? then
        w + [Packet(sid, Upd(g.ends[sid].reader.consumed, ConfigOf(k, sid).streamBuf, |g.ends[sid].taken|))]
      else if a.ParseUpdate? then w[1..]
      else w
  }

  function SysApply(k: Settings, g: System, s: SysAct): (r: System)
    requires SettingsOk(k) && Shape(g) && SysEnabled(k, g, s)
    ensures Shape(r)
  {
    match s
    case OpenStream(e) =>
      var sid := Add32(g.nextId[e], 2);
      if sid == sid % 2 then g.(nextId := g.nextId[e := sid], goAway := g.goAway[e := true])
      else g.(nextId := g.nextId[e := sid], ends := g.ends[sid := START])
    case Do(sid, a) =>
      var m := Apply(ConfigOf(k, sid), View(g, sid), a);
      g.(ends := g.ends[sid := m.(wire := [], back := [])],
         wires := [WireAfter(k, g, sid, a, 0), WireAfter(k, g, sid, a, 1)])
    case SendNop(e) => g.(wires := g.wires[e := g.wires[e] + [Nop]])
    case ReceiveNop(e) => g.(wires := g.wires[e := g.wires[e][1..]])
  }

  // ---------- Stream ids ----------

  /** Ids are counted up by two and never come again; no frame names a stream that was not opened. */
  ghost predicate IdsOk(g: System) {
    && Shape(g)
    && (forall e: End :: g.nextId[e] % 2 == e)
    && (forall sid <- g.ends :: sid >= 2 && (!g.goAway[Opener(sid)] ==> sid <= g.nextId[Opener(sid)]))
    && (forall e: End, i :: 0 <= i < |g.wires[e]| && g.wires[e][i].Packet? ==> g.wires[e][i].sid in g.ends)
  }

  lemma OpenIsFresh(g: System, e: End)
    requires IdsOk(g) && !g.goAway[e]
    ensures var sid, last: int := Add32(g.nextId[e], 2), g.nextId[e];
      && sid % 2 == e
      && (sid == sid % 2 || (sid == last + 2 && sid !in g.ends))
  {}

  /** A stream is opened under the next number of its side, and nothing else changes; when there is none left, the side
      opens no stream any more. */
  lemma OpenedIs(k: Settings, g: System, e: End)
    requires SettingsOk(k) && IdsOk(g) && SysEnabled(k, g, OpenStream(e))
    ensures var r, last: int := SysApply(k, g, OpenStream(e)), g.nextId[e];
      && r.wires == g.wires && r.nextId[1 - e] == g.nextId[1 - e] && r.goAway[1 - e] == g.goAway[1 - e]
      && if last + 2 < TWO_32 then
           last + 2 !in g.ends && r.ends == g.ends[last + 2 := START] && r.nextId[e] == last + 2 && !r.goAway[e]
         else r.ends == g.ends && r.goAway[e]
  {
    OpenIsFresh(g, e);
  }

  /** The client's first stream is 3, the server's 2. */
  lemma FirstIds(k: Settings)
    requires SettingsOk(k)
    ensures SysApply(k, NOTHING, OpenStream(1)).ends.Keys == {3}
    ensures SysApply(k, NOTHING, OpenStream(0)).ends.Keys == {2}
  {}

  lemma IdsOkKept(k: Settings, g: System, s: SysAct)
    requires SettingsOk(k) && IdsOk(g) && SysEnabled(k, g, s)
    ensures IdsOk(SysApply(k, g, s))
  {
    hide Apply, Enabled;
    match s
    case OpenStream(e) => OpenIsFresh(g, e);
    case _ =>
  }

  // ---------- Every stream on its own ----------

  lemma {:induction false} OnlyConcat(ps: seq<Packet>, p: Packet, sid: uint32)
    ensures Only(ps + [p], sid) == Only(ps, sid) + if p.Packet? && p.sid == sid then [p.msg] else []
  {
    if ps == [] {
      assert ps + [p] == [p] && [p][1..] == [];
    } else {
      OnlyConcat(ps[1..], p, sid);
      assert (ps + [p])[1..] == ps[1..] + [p];
    }
  }

  lemma {:induction false} OnlyAbsent(ps: seq<Packet>, sid: uint32)
    requires forall i :: 0 <= i < |ps| && ps[i].Packet? ==> ps[i].sid != sid
    ensures Only(ps, sid) == []
  {
    if ps != [] {
      OnlyAbsent(ps[1..], sid);
    }
  }

  lemma OnlyHead(ps: seq<Packet>, sid: uint32)
    requires ps != []
    ensures Only(ps, sid) == (if HeadIs(ps, sid) then [ps[0].msg] else []) + Only(ps[1..], sid)
    ensures HeadIs(ps, sid) ==> Only(ps[1..], sid) == Only(ps, sid)[1..]
    ensures !HeadIs(ps, sid) ==> Only(ps[1..], sid) == Only(ps, sid)
  {}

  lemma WireAfterProjects(k: Settings, g: System, sid: uint32, a: Act, other: uint32)
    requires SettingsOk(k) && Shape(g) && SysEnabled(k, g, Do(sid, a)) && other in g.ends
    ensures var m, e := Apply(ConfigOf(k, sid), View(g, sid), a), Opener(other);
      if other == sid then
        Only(WireAfter(k, g, sid, a, e), sid) == m.wire && Only(WireAfter(k, g, sid, a, 1 - e), sid) == m.back
      else forall d: End :: Only(WireAfter(k, g, sid, a, d), other) == Only(g.wires[d], other)
  {
    hide Apply, Enabled, Only;
    StepOnWires(ConfigOf(k, sid), View(g, sid), a);
    if a.Receive? {
      OnlyHead(g.wires[Opener(sid)], other);
    } else if a.ParseUpdate? {
      OnlyHead(g.wires[Acceptor(sid)], other);
    } else if a.SendForward? {
      OnlyConcat(g.wires[Opener(sid)], Packet(sid, Outgoing(g.ends[sid].writer)), other);
    } else if a.SendBack? {
      var upd := Upd(g.ends[sid].reader.consumed, ConfigOf(k, sid).streamBuf, |g.ends[sid].taken|);
      OnlyConcat(g.wires[Acceptor(sid)], Packet(sid, upd), other);
    }
  }

  lemma WiresAfterDo(k: Settings, g: System, sid: uint32, a: Act, e: End)
    requires SettingsOk(k) && Shape(g) && SysEnabled(k, g, Do(sid, a))
    ensures SysApply(k, g, Do(sid, a)).wires[e] == WireAfter(k, g, sid, a, e)
    ensures SysApply(k, g, Do(sid, a)).ends
      == g.ends[sid := Apply(ConfigOf(k, sid), View(g, sid), a).(wire := [], back := [])]
  {
    hide Apply, Enabled, WireAfter;
  }

  /** A step of a stream is that stream's own step. */
  lemma DoProjects(k: Settings, g: System, sid: uint32, a: Act)
    requires SettingsOk(k) && Shape(g) && SysEnabled(k, g, Do(sid, a))
    ensures View(SysApply(k, g, Do(sid, a)), sid) == Apply(ConfigOf(k, sid), View(g, sid), a)
  {
    WireAfterProjects(k, g, sid, a, sid);
    WiresAfterDo(k, g, sid, a, Opener(sid));
    WiresAfterDo(k, g, sid, a, Acceptor(sid));
    hide Apply, Enabled, WireAfter, SysApply, SysEnabled, Only;
  }

  /** It leaves every other stream as it is. */
  lemma DoLeavesOthers(k: Settings, g: System, sid: uint32, a: Act, other: uint32)
    requires SettingsOk(k) && Shape(g) && SysEnabled(k, g, Do(sid, a)) && other in g.ends && other != sid
    ensures View(SysApply(k, g, Do(sid, a)), other) == View(g, other)
  {
    WireAfterProjects(k, g, sid, a, other);
    WiresAfterDo(k, g, sid, a, Opener(other));
    WiresAfterDo(k, g, sid, a, Acceptor(other));
    hide Apply, Enabled, WireAfter, SysApply, SysEnabled, Only;
  }

  /** Every stream of the system is in a state that the one-stream machine reaches. */
  ghost predicate StreamsOk(k: Settings, g: System)
    requires SettingsOk(k)
  {
    IdsOk(g) && forall sid <- g.ends :: Reachable(ConfigOf(k, sid), View(g, sid))
  }

  lemma StreamsOkKept(k: Settings, g: System, s: SysAct)
    requires SettingsOk(k) && StreamsOk(k, g) && SysEnabled(k, g, s)
    ensures StreamsOk(k, SysApply(k, g, s))
  {
    IdsOkKept(k, g, s);
    var r := SysApply(k, g, s);
    forall sid | sid in r.ends
      ensures Reachable(ConfigOf(k, sid), View(r, sid))
    {
      StreamStaysReachable(k, g, s, sid);
    }
  }

  lemma OpenedIsReachable(k: Settings, g: System, e: End, sid: uint32)
    requires SettingsOk(k) && StreamsOk(k, g) && SysEnabled(k, g, OpenStream(e))
    requires sid in SysApply(k, g, OpenStream(e)).ends
    ensures Reachable(ConfigOf(k, sid), View(SysApply(k, g, OpenStream(e)), sid))
  {
    hide Reachable;
    OpenIsFresh(g, e);
    if sid !in g.ends {
      OnlyAbsent(g.wires[0], sid);
      OnlyAbsent(g.wires[1], sid);
      StartIsReachable(ConfigOf(k, sid));
    }
  }

  lemma DoStaysReachable(k: Settings, g: System, x: uint32, a: Act, sid: uint32)
    requires SettingsOk(k) && StreamsOk(k, g) && SysEnabled(k, g, Do(x, a)) && sid in g.ends
    ensures Reachable(ConfigOf(k, sid), View(SysApply(k, g, Do(x, a)), sid))
  {
    if x == sid {
      DoProjects(k, g, x, a);
      var m := Step(ConfigOf(k, sid), View(g, sid), a);
    } else {
      DoLeavesOthers(k, g, x, a, sid);
    }
    hide Reachable, Apply, SysApply, Enabled, View;
  }

  lemma NopKeepsView(k: Settings, g: System, s: SysAct, sid: uint32)
    requires SettingsOk(k) && Shape(g) && SysEnabled(k, g, s) && (s.SendNop? || s.ReceiveNop?) && sid in g.ends
    ensures SysApply(k, g, s).ends == g.ends
    ensures View(SysApply(k, g, s), sid) == View(g, sid)
  {
    hide Apply, Enabled, Only;
    if s.SendNop? {
      OnlyConcat(g.wires[s.e], Nop, sid);
    } else {
      OnlyHead(g.wires[s.e], sid);
    }
  }

  /** A NOP frame goes to the end of the wire of its sender, and is taken off it at the other end. */
  lemma NopOnWire(k: Settings, g: System, s: SysAct)
    requires SettingsOk(k) && Shape(g) && SysEnabled(k, g, s) && (s.SendNop? || s.ReceiveNop?)
    ensures var w := SysApply(k, g, s).wires;
      if s.SendNop? then w == g.wires[s.e := g.wires[s.e] + [Nop]]
      else g.wires[s.e] == [Nop] + w[s.e] && w[1 - s.e] == g.wires[1 - s.e]
  {}

  lemma StreamStaysReachable(k: Settings, g: System, s: SysAct, sid: uint32)
    requires SettingsOk(k) && StreamsOk(k, g) && SysEnabled(k, g, s) && sid in SysApply(k, g, s).ends
    ensures Reachable(ConfigOf(k, sid), View(SysApply(k, g, s), sid))
  {
    hide Reachable, Apply, View, Enabled;
    match s
    case OpenStream(e) => OpenedIsReachable(k, g, e, sid);
    case Do(x, a) => DoStaysReachable(k, g, x, a, sid);
    case _ => NopKeepsView(k, g, s, sid);
  }

  lemma StartIsReachable(c: Config)
    ensures Reachable(c, START)
  {
    assert RunsFrom(c, START, []) && After(c, START, []) == START;
  }

  // ---------- Whole runs of the system ----------

  ghost predicate SysRuns(k: Settings, g: System, acts: seq<SysAct>)
    requires SettingsOk(k) && Shape(g)
    decreases |acts|
  {
    acts == [] || (SysEnabled(k, g, acts[0]) && SysRuns(k, SysApply(k, g, acts[0]), acts[1..]))
  }

  ghost function SysAfter(k: Settings, g: System, acts: seq<SysAct>): (r: System)
    requires SettingsOk(k) && Shape(g) && SysRuns(k, g, acts)
    ensures Shape(r)
    decreases |acts|
  {
    if acts == [] then g else SysAfter(k, SysApply(k, g, acts[0]), acts[1..])
  }

  /** Whatever the interleaving of streams, directions and endpoints, each stream behaves as it would alone; so
      all that holds of one stream in every run holds of every stream of the system. */
  lemma {:induction false} EveryStreamAsIfAlone(k: Settings, g: System, acts: seq<SysAct>)
    requires SettingsOk(k) && StreamsOk(k, g) && SysRuns(k, g, acts)
    ensures StreamsOk(k, SysAfter(k, g, acts))
    decreases |acts|
  {
    hide SysApply, SysEnabled, Reachable;
    if acts != [] {
      StreamsOkKept(k, g, acts[0]);
      EveryStreamAsIfAlone(k, SysApply(k, g, acts[0]), acts[1..]);
    }
  }

  ghost predicate SysReachable(k: Settings, g: System)
    requires SettingsOk(k)
  {
    exists acts :: SysRuns(k, NOTHING, acts) && SysAfter(k, NOTHING, acts) == g
  }

  lemma SysReachableOk(k: Settings, g: System)
    requires SettingsOk(k) && SysReachable(k, g)
    ensures StreamsOk(k, g)
  {
    var acts :| SysRuns(k, NOTHING, acts) && SysAfter(k, NOTHING, acts) == g;
    EveryStreamAsIfAlone(k, NOTHING, acts);
  }

  /** The bytes of a stream that sit in frames on the shared connection. */
  function BytesOnWire(g: System, sid: uint32): seq<byte>
    requires Shape(g)
  {
    DataOf(Only(g.wires[Opener(sid)], sid))
  }

  /** End to end, for every stream of every reachable system. */
  lemma SystemEndToEnd(k: Settings, g: System, sid: uint32)
    requires SettingsOk(k) && SysReachable(k, g) && Shape(g) && sid in g.ends
    ensures var l := g.ends[sid];
      && l.written == l.taken + Flat(l.buffers) + BytesOnWire(g, sid) + Pending(l.writer) + Uncut(l.writer)
      && (l.reader.AtEof? ==> l.taken == l.written)
      && !l.writer.Refused?
  {
    SysReachableOk(k, g);
    var c, l := ConfigOf(k, sid), View(g, sid);
    EndToEnd(c, l);
    EofMeansComplete(c, l);
    ReachableInv(c, l);
    hide Conserved, UpdatesOk, WindowOk, SignalOk, AcksOk;
  }

  /** No version 2 receiver ever holds more than its window of any stream; and given the room, every stream of every
      reachable system whose writer waits for an update can, taken by itself and with no bucket that holds frames back,
      still send. For the shared wires and the buckets see GatedProgress.RoomSuffices. */
  lemma SystemWindow(k: Settings, g: System, sid: uint32)
    requires SettingsOk(k) && k.version == 2 && SysReachable(k, g) && Shape(g) && sid in g.ends
    ensures |Flat(g.ends[sid].buffers)| <= MaxWindow(ConfigOf(k, sid))
    ensures Roomy(ConfigOf(k, sid)) && g.ends[sid].writer.Blocked? ==> Deadlock.CanSend(ConfigOf(k, sid), View(g, sid))
  {
    SysReachableOk(k, g);
    WindowSafety(ConfigOf(k, sid), View(g, sid));
    if Roomy(ConfigOf(k, sid)) {
      Deadlock.NeverStuckIff(ConfigOf(k, sid));
    }
    hide *;
  }

  // ---------- The wires as bytes ----------

  function FrameOf(ver: byte, p: Packet): Frame {
    match p
    case Nop => Frame(ver, CMD_NOP, 0, [])
    case Packet(sid, Syn) => Frame(ver, CMD_SYN, sid, [])
    case Packet(sid, Psh(data)) => Frame(ver, CMD_PSH, sid, data)
    case Packet(sid, Fin) => Frame(ver, CMD_FIN, sid, [])
    case Packet(sid, Upd(consumed, window, _)) => Frame(ver, CMD_UPD, sid, UpdateData(consumed, window))
  }

  function FramesOf(ver: byte, ps: seq<Packet>): seq<Frame> {
    if ps == [] then [] else [FrameOf(ver, ps[0])] + FramesOf(ver, ps[1..])
  }

  /** What the receiving end makes of a frame; the history count of an update is not on the wire. */
  function PacketOf(f: Frame): Packet
    requires f.cmd == CMD_UPD ==> |f.data| == SZ_CMD_UPD
  {
    if f.cmd == CMD_SYN then Packet(f.sid, Syn)
    else if f.cmd == CMD_FIN then Packet(f.sid, Fin)
    else if f.cmd == CMD_PSH then Packet(f.sid, Psh(f.data))
    else if f.cmd == CMD_UPD then Packet(f.sid, Upd(GetU32(f.data), GetU32(f.data[4..]), 0))
    else Nop
  }

  function WithoutHistory(p: Packet): Packet {
    if p.Packet? && p.msg.Upd? then p.(msg := p.msg.(total := 0)) else p
  }

  lemma PacketRoundTrip(ver: byte, p: Packet)
    ensures PacketOf(FrameOf(ver, p)) == WithoutHistory(p)
  {
    if p.Packet? && p.msg.Upd? {
      UpdateDataBack(p.msg.consumed, p.msg.window);
    }
  }

  lemma {:induction false} OnlyContains(ps: seq<Packet>, i: nat)
    requires i < |ps| && ps[i].Packet?
    ensures ps[i].msg in Only(ps, ps[i].sid)
  {
    if i > 0 {
      OnlyContains(ps[1..], i - 1);
    }
  }

  lemma FrameOfStreamIsWireSafe(c: Config, l: Link, sid: uint32, m: Msg)
    requires ConfigOk(c) && WireOk(c, l) && (m in l.wire || m in l.back)
    ensures WireSafe(c.version, FrameOf(c.version, Packet(sid, m)))
  {
    if m in l.wire {
      var i :| 0 <= i < |l.wire| && l.wire[i] == m;
    } else {
      var i :| 0 <= i < |l.back| && l.back[i] == m;
    }
  }

  lemma PacketIsInView(g: System, e: End, i: nat)
    requires IdsOk(g) && i < |g.wires[e]| && g.wires[e][i].Packet?
    ensures var p := g.wires[e][i];
      p.sid in g.ends && (p.msg in View(g, p.sid).wire || p.msg in View(g, p.sid).back)
  {
    OnlyContains(g.wires[e], i);
    hide Only;
  }

  lemma ReachableWireOk(c: Config, l: Link)
    requires ConfigOk(c) && Reachable(c, l)
    ensures WireOk(c, l)
  {
    ReachableInv(c, l);
  }

  /** Every frame that any producer puts on the connection survives the trip; no length is ever truncated. */
  lemma EveryFrameIsWireSafe(k: Settings, g: System, e: End, i: nat)
    requires SettingsOk(k) && SysReachable(k, g) && Shape(g) && i < |g.wires[e]|
    ensures WireSafe(k.version, FrameOf(k.version, g.wires[e][i]))
  {
    var p := g.wires[e][i];
    SysReachableOk(k, g);
    if p.Packet? {
      PacketIsInView(g, e, i);
      ReachableWireOk(ConfigOf(k, p.sid), View(g, p.sid));
      hide WireOk, View, Reachable, WireSafe, SysReachable;
      FrameOfStreamIsWireSafe(ConfigOf(k, p.sid), View(g, p.sid), p.sid, p.msg);
    }
  }

  lemma {:induction false} FramesOfAt(ver: byte, ps: seq<Packet>)
    ensures |FramesOf(ver, ps)| == |ps|
    ensures forall i :: 0 <= i < |ps| ==> FramesOf(ver, ps)[i] == FrameOf(ver, ps[i])
  {
    hide FrameOf;
    if ps != [] {
      FramesOfAt(ver, ps[1..]);
      forall i | 0 < i < |ps|
        ensures FramesOf(ver, ps)[i] == FrameOf(ver, ps[i])
      {
        assert FramesOf(ver, ps)[i] == FramesOf(ver, ps[1..])[i - 1];
      }
    }
  }

  /** The bytes of a wire, cut in pieces anyhow, are read back as exactly the frames that were put on it. */
  lemma ConnectionRoundTrip(k: Settings, g: System, e: End)
    requires SettingsOk(k) && SysReachable(k, g) && Shape(g)
    ensures var fs := FramesOf(k.version, g.wires[e]);
      && ReceiveAll(k.version, EncodeAll(fs)) == Received(fs, [], false)
      && |fs| == |g.wires[e]|
      && forall i :: 0 <= i < |fs| ==> WireSafe(k.version, fs[i]) && PacketOf(fs[i]) == WithoutHistory(g.wires[e][i])
  {
    var ver, ps := k.version, g.wires[e];
    var fs := FramesOf(ver, ps);
    FramesOfAt(ver, ps);
    forall i | 0 <= i < |fs|
      ensures WireSafe(ver, fs[i]) && PacketOf(fs[i]) == WithoutHistory(ps[i])
    {
      EveryFrameIsWireSafe(k, g, e, i);
      PacketRoundTrip(ver, ps[i]);
    }
    hide WireSafe, FrameOf, PacketOf, SysReachable;
    FramesRoundTrip(ver, fs, []);
    assert EncodeAll(fs) + [] == EncodeAll(fs) && ReceiveAll(ver, []) == Received([], [], false);
    assert fs + [] == fs;
  }
}
