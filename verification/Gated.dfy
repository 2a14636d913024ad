/** Two endpoints with any number of streams over one connection, and each recvLoop under its own token bucket: the
    system of Mux with the gate of Receive at both ends. A frame is read only when the bucket allows it, and readers
    give tokens back between taking bytes and reporting them. The bucket is the int32 of the source. */
module Gated {
  import opened Arith
  import opened Wire
  import opened StreamLink
  import opened Mux
  import R = Receive

  const MAX_PAYLOAD := 65535

  /** Where a recvLoop is: before its bucket, in the select on bucketNotify, at a frame, after a push of n bytes that
      are not yet charged, or in the middle of storing an update. */
  datatype Place = Checking | Parked | Reading | Charging(n: nat) | Storing(sid: uint32)

  datatype Gate = Gate(bucket: int, notify: bool, place: Place)

  /** What the reader of a stream still has to do in returnTokens. */
  datatype Giving = Nothing | Owes(n: nat) | Notifying

  datatype Pair = Pair(g: System, gates: seq<Gate>, giving: map<uint32, Giving>)

  predicate BucketsOk(max: seq<int>) {
    |max| == 2 && forall e: End :: I32(max[e]) == max[e]
  }

  function Start(max: seq<int>): Pair
    requires BucketsOk(max)
  {
    Pair(NOTHING, [Gate(max[0], false, Checking), Gate(max[1], false, Checking)], map[])
  }

  predicate PairShape(s: Pair) {
    Shape(s.g) && |s.gates| == 2
  }

  function GivingOf(s: Pair, sid: uint32): Giving {
    if sid in s.giving then s.giving[sid] else Nothing
  }

  datatype PairAct =
    | Sys(s: SysAct)
    | CheckBucket(e: End)
    | WakeReceiver(e: End)
    | Charge(e: End)
    | Return(sid: uint32)        // returnTokens, the addition
    | NotifyBucket(sid: uint32)  // returnTokens, notifyBucket
    | Ping(e: End)               // keepalive forces a signal

  predicate ReaderCall(a: Act) {
    a.TryRead? || a.Ack? || a.WakeByEvent? || a.WakeByFin? || a.ReadAgain?
  }

  /** A step of the streams that the gates and the readers' duties allow. */
  predicate Admitted(s: Pair, x: SysAct)
    requires PairShape(s)
  {
    match x
    case OpenStream(_) => true
    case SendNop(_) => true
    case ReceiveNop(e) => s.gates[1 - e].place.Reading?
    case Do(sid, a) =>
      && (a.Receive? ==> s.gates[Acceptor(sid)].place.Reading?)
      && (a.ParseUpdate? ==> s.gates[Opener(sid)].place.Reading?)
      && (ReaderCall(a) ==> GivingOf(s, sid).Nothing?)
  }

  predicate PairEnabled(k: Settings, s: Pair, a: PairAct)
    requires SettingsOk(k) && PairShape(s)
  {
    match a
    case Sys(x) => SysEnabled(k, s.g, x) && Admitted(s, x)
    case CheckBucket(e) => s.gates[e].place.Checking?
    case WakeReceiver(e) => s.gates[e].place.Parked? && s.gates[e].notify
    case Charge(e) => s.gates[e].place.Charging?
    case Return(sid) => GivingOf(s, sid).Owes?
    case NotifyBucket(sid) => GivingOf(s, sid).Notifying?
    case Ping(e) => true
  }

  /** Bytes that the frame at the head of the wire puts into the stream's buffers. */
  function Arriving(l: Link): nat {
    if l.wire != [] && l.wire[0].Psh? && l.registered then |l.wire[0].data| else 0
  }

  function PlaceAfter(l: Link, sid: uint32, a: Act): Place {
    if a.Receive? && Arriving(l) > 0 then Charging(Arriving(l))
    else if a.ParseUpdate? && l.recorded then Storing(sid)
    else Checking
  }

  function GateAfterDo(s: Pair, sid: uint32, a: Act, e: End): Gate
    requires PairShape(s) && sid in s.g.ends
  {
    if (a.Receive? && e == Acceptor(sid)) || ((a.ParseUpdate? || a.Signal?) && e == Opener(sid)) then
      s.gates[e].(place := PlaceAfter(View(s.g, sid), sid, a))
    else s.gates[e]
  }

  function GivingAfterDo(s: Pair, sid: uint32, a: Act): map<uint32, Giving>
    requires PairShape(s) && sid in s.g.ends
  {
    if a.TryRead? && ReadCount(View(s.g, sid), a.max) > 0 then
      s.giving[sid := Owes(ReadCount(View(s.g, sid), a.max))]
    else s.giving
  }

  function PairApply(k: Settings, s: Pair, a: PairAct): (r: Pair)
    requires SettingsOk(k) && PairShape(s) && PairEnabled(k, s, a)
    ensures PairShape(r)
    ensures r.g == if a.Sys? then SysApply(k, s.g, a.s) else s.g
  {
    match a
    case Sys(x) =>
      var g := SysApply(k, s.g, x);
      (match x
       case Do(sid, b) =>
         Pair(g, [GateAfterDo(s, sid, b, 0), GateAfterDo(s, sid, b, 1)], GivingAfterDo(s, sid, b))
       case ReceiveNop(e) => s.(g := g, gates := s.gates[1 - e := s.gates[1 - e].(place := Checking)])
       case _ => s.(g := g))
    case CheckBucket(e) =>
      s.(gates := s.gates[e := s.gates[e].(place := if s.gates[e].bucket <= 0 then Parked else Reading)])
    case WakeReceiver(e) => s.(gates := s.gates[e := s.gates[e].(notify := false, place := Checking)])
    case Charge(e) =>
      s.(gates := s.gates[e := s.gates[e].(bucket := I32(s.gates[e].bucket - s.gates[e].place.n), place := Checking)])
    case Return(sid) =>
      var e := Acceptor(sid);
      var bucket := I32(s.gates[e].bucket + s.giving[sid].n);
      s.(gates := s.gates[e := s.gates[e].(bucket := bucket)],
         giving := s.giving[sid := if bucket > 0 then Notifying else Nothing])
    case NotifyBucket(sid) =>
      var e := Acceptor(sid);
      s.(gates := s.gates[e := s.gates[e].(notify := true)], giving := s.giving[sid := Nothing])
    case Ping(e) => s.(gates := s.gates[e := s.gates[e].(notify := true)])
  }

  ghost predicate PairRuns(k: Settings, s: Pair, acts: seq<PairAct>)
    requires SettingsOk(k) && PairShape(s)
    decreases |acts|
  {
    acts == [] || (PairEnabled(k, s, acts[0]) && PairRuns(k, PairApply(k, s, acts[0]), acts[1..]))
  }

  ghost function PairAfter(k: Settings, s: Pair, acts: seq<PairAct>): (r: Pair)
    requires SettingsOk(k) && PairShape(s) && PairRuns(k, s, acts)
    ensures PairShape(r)
    decreases |acts|
  {
    if acts == [] then s else PairAfter(k, PairApply(k, s, acts[0]), acts[1..])
  }

  ghost predicate PairReachable(k: Settings, max: seq<int>, s: Pair)
    requires SettingsOk(k) && BucketsOk(max)
  {
    exists acts :: PairRuns(k, Start(max), acts) && PairAfter(k, Start(max), acts) == s
  }

  lemma {:induction false} PairSnoc(k: Settings, s: Pair, acts: seq<PairAct>, a: PairAct)
    requires SettingsOk(k) && PairShape(s) && PairRuns(k, s, acts) && PairEnabled(k, PairAfter(k, s, acts), a)
    ensures PairRuns(k, s, acts + [a])
    ensures PairAfter(k, s, acts + [a]) == PairApply(k, PairAfter(k, s, acts), a)
    decreases |acts|
  {
    hide PairEnabled, PairApply;
    if acts != [] {
      PairSnoc(k, PairApply(k, s, acts[0]), acts[1..], a);
      assert (acts + [a])[1..] == acts[1..] + [a];
    } else {
      assert acts + [a] == [a] && [a][1..] == [];
    }
  }

  lemma PairStep(k: Settings, max: seq<int>, s: Pair, a: PairAct) returns (r: Pair)
    requires SettingsOk(k) && BucketsOk(max) && PairReachable(k, max, s) && PairShape(s) && PairEnabled(k, s, a)
    ensures r == PairApply(k, s, a) && PairReachable(k, max, r)
  {
    hide PairEnabled, PairApply;
    var acts :| PairRuns(k, Start(max), acts) && PairAfter(k, Start(max), acts) == s;
    PairSnoc(k, Start(max), acts, a);
    r := PairApply(k, s, a);
  }

  /** A keepalive wakes a parked recvLoop. */
  lemma PingWakes(k: Settings, s: Pair, e: End)
    requires SettingsOk(k) && PairShape(s) && s.gates[e].place.Parked?
    ensures PairEnabled(k, PairApply(k, s, Ping(e)), WakeReceiver(e))
    ensures PairApply(k, s, Ping(e)).g == s.g
  {}

  // ---------- The gates only hold steps back ----------

  lemma {:induction false} SysSnoc(k: Settings, g: System, acts: seq<SysAct>, a: SysAct)
    requires SettingsOk(k) && Shape(g) && SysRuns(k, g, acts) && SysEnabled(k, SysAfter(k, g, acts), a)
    ensures SysRuns(k, g, acts + [a]) && SysAfter(k, g, acts + [a]) == SysApply(k, SysAfter(k, g, acts), a)
    decreases |acts|
  {
    hide SysEnabled, SysApply;
    if acts != [] {
      SysSnoc(k, SysApply(k, g, acts[0]), acts[1..], a);
      assert (acts + [a])[1..] == acts[1..] + [a];
    } else {
      assert acts + [a] == [a] && [a][1..] == [];
    }
  }

  lemma SysStep(k: Settings, g: System, a: SysAct)
    requires SettingsOk(k) && SysReachable(k, g) && Shape(g) && SysEnabled(k, g, a)
    ensures SysReachable(k, SysApply(k, g, a))
  {
    hide SysEnabled, SysApply;
    var acts :| SysRuns(k, NOTHING, acts) && SysAfter(k, NOTHING, acts) == g;
    SysSnoc(k, NOTHING, acts, a);
  }

  lemma {:induction false} RunRefines(k: Settings, s: Pair, acts: seq<PairAct>)
    requires SettingsOk(k) && PairShape(s) && SysReachable(k, s.g) && PairRuns(k, s, acts)
    ensures SysReachable(k, PairAfter(k, s, acts).g)
    decreases |acts|
  {
    hide PairApply, SysReachable, SysEnabled, SysApply;
    if acts != [] {
      if acts[0].Sys? {
        SysStep(k, s.g, acts[0].s);
      }
      RunRefines(k, PairApply(k, s, acts[0]), acts[1..]);
    }
  }

  /** Without its gates, a run under token buckets is a run of Mux: what holds of every run there, order, windows and
      the wire format, holds here. */
  lemma PairRefinesSystem(k: Settings, max: seq<int>, s: Pair)
    requires SettingsOk(k) && BucketsOk(max) && PairReachable(k, max, s)
    ensures PairShape(s) && SysReachable(k, s.g) && StreamsOk(k, s.g)
  {
    hide SysApply, SysEnabled, PairApply, PairEnabled, StreamsOk;
    assert SysRuns(k, NOTHING, []) && SysAfter(k, NOTHING, []) == NOTHING;
    var acts :| PairRuns(k, Start(max), acts) && PairAfter(k, Start(max), acts) == s;
    RunRefines(k, Start(max), acts);
    SysReachableOk(k, s.g);
  }

  // ---------- What one stream's step does to its buffers and its update ----------

  lemma ReadTakesBytes(c: Config, l: Link, max: nat)
    requires Enabled(c, l, TryRead(max))
    ensures |Flat(AfterTryRead(c, l, max).buffers)| == |Flat(l.buffers)| - ReadCount(l, max)
  {
    hide AckDue, U32;
    if l.buffers != [] && ReadCount(l, max) < |l.buffers[0]| {
      assert AfterTryRead(c, l, max).buffers[1..] == l.buffers[1..];
    }
  }

  lemma ReceivePutsBytes(l: Link)
    requires l.wire != []
    ensures |Flat(AfterReceive(l).buffers)| == |Flat(l.buffers)| + Arriving(l)
  {
    if l.wire[0].Psh? {
      FlatConcat(l.buffers, l.wire[0].data);
    }
    hide Flat;
  }

  /** Bytes enter the buffers with a payload and leave them with a read; recvLoop has an update in hand from ParseUpdate
      to Signal. */
  lemma LinkChanges(c: Config, l: Link, a: Act)
    requires Enabled(c, l, a) && WireOk(c, l)
    ensures var m := Apply(c, l, a);
      && |Flat(m.buffers)| == |Flat(l.buffers)| + (if a.Receive? then Arriving(l) else 0)
                              - (if a.TryRead? then ReadCount(l, a.max) else 0)
      && (m.updater.NoUpdate? <==>
            if a.ParseUpdate? then !l.recorded else if a.Signal? then true else l.updater.NoUpdate?)
      && (a.ParseUpdate? ==> l.updater.NoUpdate?)
  {
    if UpdaterStep(a) {
      ByUpdater(c, l, a);
      hide Apply, Flat;
    } else if WriterStep(a) {
      hide ApplyWriter, ApplyAcceptor, Enabled, WireOk, Flat;
    } else {
      ByAcceptor(c, l, a);
      AcceptorChanges(c, l, a);
      hide Apply, ApplyAcceptor, Enabled, WireOk, Flat;
    }
  }

  lemma AcceptorChanges(c: Config, l: Link, a: Act)
    requires Enabled(c, l, a) && !WriterStep(a) && !UpdaterStep(a)
    ensures |Flat(ApplyAcceptor(c, l, a).buffers)| == |Flat(l.buffers)| + (if a.Receive? then Arriving(l) else 0)
                                                      - (if a.TryRead? then ReadCount(l, a.max) else 0)
  {
    hide AfterReceive, AfterTryRead, Flat, Arriving, ReadCount;
    if a.TryRead? {
      ReadTakesBytes(c, l, a.max);
    } else if a.Receive? {
      ReceivePutsBytes(l);
    }
  }

  // ---------- Tokens ----------

  function Debt(p: Giving): nat {
    if p.Owes? then p.n else 0
  }

  /** Bytes of a stream that are buffered, or taken and not yet given back. */
  function Holding(s: Pair, sid: uint32): nat
    requires sid in s.g.ends
  {
    |Flat(s.g.ends[sid].buffers)| + Debt(GivingOf(s, sid))
  }

  function Holdings(s: Pair, e: End): map<nat, nat> {
    map sid | sid in s.g.ends && Acceptor(sid) == e :: Holding(s, sid)
  }

  /** The tokens that the streams accepted at endpoint e keep from its bucket. */
  ghost function Held(s: Pair, e: End): nat {
    R.Total(Holdings(s, e))
  }

  function Uncharged(p: Place): nat {
    if p.Charging? then p.n else 0
  }

  ghost predicate TokensOk(max: seq<int>, s: Pair, e: End)
    requires BucketsOk(max) && PairShape(s)
  {
    && s.gates[e].bucket == I32(max[e] - Held(s, e) + Uncharged(s.gates[e].place))
    && (s.gates[e].place.Reading? ==> Held(s, e) < max[e])
    && Held(s, e) <= if max[e] > 0 then max[e] + MAX_PAYLOAD - 1 else 0
  }

  /** recvLoop stores an update for a stream exactly while that stream's update is in hand. */
  predicate StoringOk(s: Pair, e: End)
    requires PairShape(s)
  {
    && (forall sid <- s.g.ends :: Opener(sid) == e ==>
          (s.g.ends[sid].updater.NoUpdate? <==> s.gates[e].place != Storing(sid)))
    && (s.gates[e].place.Storing? ==> s.gates[e].place.sid in s.g.ends && Opener(s.gates[e].place.sid) == e)
  }

  ghost predicate SignalledOk(s: Pair, e: End)
    requires PairShape(s)
  {
    s.gates[e].place.Parked? && s.gates[e].bucket > 0 ==>
      s.gates[e].notify || exists sid :: sid in s.giving && Acceptor(sid) == e && s.giving[sid].Notifying?
  }

  predicate GivingOk(s: Pair) {
    forall sid <- s.giving :: sid in s.g.ends
  }

  ghost predicate GateOk(max: seq<int>, s: Pair, e: End)
    requires BucketsOk(max) && PairShape(s)
  {
    TokensOk(max, s, e) && StoringOk(s, e) && SignalledOk(s, e)
  }

  ghost predicate PairInv(k: Settings, max: seq<int>, s: Pair)
    requires SettingsOk(k) && BucketsOk(max)
  {
    PairShape(s) && StreamsOk(k, s.g) && GivingOk(s) && forall e: End :: GateOk(max, s, e)
  }

  /** Outside of a push the int32 bucket is the true number of tokens, whatever wraps in between. */
  lemma BucketIsExact(max: seq<int>, s: Pair, e: End)
    requires BucketsOk(max) && PairShape(s) && TokensOk(max, s, e) && !s.gates[e].place.Charging?
    ensures s.gates[e].bucket == max[e] - Held(s, e)
  {
    hide Held;
  }

  lemma I32Add(x: int, y: int)
    ensures I32(I32(x) + y) == I32(x + y)
  {
    var q := if x % TWO_32 < TWO_31 then x / TWO_32 else x / TWO_32 + 1;
    assert I32(x) + y == x + y - TWO_32 * q;
  }

  /** One stream's holding has changed, and no other. */
  lemma HeldUpdate(s: Pair, r: Pair, sid: uint32, e: End)
    requires sid in r.g.ends && r.g.ends.Keys == s.g.ends.Keys + {sid}
    requires forall x <- s.g.ends :: x != sid ==> Holding(r, x) == Holding(s, x)
    ensures Held(r, e) == Held(s, e) + if Acceptor(sid) != e then 0
      else if sid in s.g.ends then Holding(r, sid) - Holding(s, sid) else Holding(r, sid)
  {
    hide Holding, R.Total;
    if Acceptor(sid) == e {
      assert Holdings(r, e) == Holdings(s, e)[sid := Holding(r, sid)];
      R.TotalUpdate(Holdings(s, e), sid, Holding(r, sid));
    } else {
      assert Holdings(r, e) == Holdings(s, e);
    }
  }

  lemma SameHeld(s: Pair, r: Pair, e: End)
    requires r.g.ends.Keys == s.g.ends.Keys && forall x <- s.g.ends :: Holding(r, x) == Holding(s, x)
    ensures Held(r, e) == Held(s, e)
  {
    hide Holding, R.Total;
    assert Holdings(r, e) == Holdings(s, e);
  }

  // ---------- Each step keeps the gates in order ----------

  /** A stream's step at the level of gates: what it leaves alone, and what it moves on. */
  lemma DoOnGates(k: Settings, s: Pair, sid: uint32, a: Act, e: End)
    requires SettingsOk(k) && PairShape(s) && PairEnabled(k, s, Sys(Do(sid, a)))
    ensures var r := PairApply(k, s, Sys(Do(sid, a)));
      && r.gates[e] == GateAfterDo(s, sid, a, e) && r.giving == GivingAfterDo(s, sid, a)
      && r.g.ends == s.g.ends[sid := Apply(ConfigOf(k, sid), View(s.g, sid), a).(wire := [], back := [])]
  {
    WiresAfterDo(k, s.g, sid, a, e);
    hide Apply, Enabled, View, SysApply, GateAfterDo, GivingAfterDo;
  }

  /** What a stream's step does to its tokens: bytes come with a payload; a read only turns them into a debt. */
  lemma HoldingAfterDo(k: Settings, s: Pair, sid: uint32, a: Act)
    requires SettingsOk(k) && PairShape(s) && StreamsOk(k, s.g) && PairEnabled(k, s, Sys(Do(sid, a)))
    ensures var r := PairApply(k, s, Sys(Do(sid, a)));
      Holding(r, sid) == Holding(s, sid) + (if a.Receive? then Arriving(View(s.g, sid)) else 0)
  {
    var l := View(s.g, sid);
    ReachableWireOk(ConfigOf(k, sid), l);
    LinkChanges(ConfigOf(k, sid), l, a);
    DoOnGates(k, s, sid, a, 0);
    assert a.TryRead? ==> GivingOf(s, sid).Nothing?;
    hide Apply, Enabled, WireOk, StreamsOk, Flat, Arriving, ReadCount, PairApply, PairEnabled, GateAfterDo;
  }

  lemma OthersHold(k: Settings, s: Pair, sid: uint32, a: Act)
    requires SettingsOk(k) && PairShape(s) && PairEnabled(k, s, Sys(Do(sid, a)))
    ensures var r := PairApply(k, s, Sys(Do(sid, a)));
      sid in s.g.ends && r.g.ends.Keys == s.g.ends.Keys
      && forall x <- s.g.ends :: x != sid ==> Holding(r, x) == Holding(s, x)
  {
    DoOnGates(k, s, sid, a, 0);
    hide Apply, Enabled, Flat, View, ReadCount, PairApply, PairEnabled, GateAfterDo;
  }

  lemma HeldMoves(s: Pair, r: Pair, sid: uint32, e: End)
    requires sid in s.g.ends && r.g.ends.Keys == s.g.ends.Keys
    requires forall x <- s.g.ends :: x != sid ==> Holding(r, x) == Holding(s, x)
    ensures Held(r, e) == Held(s, e) + if Acceptor(sid) == e then Holding(r, sid) - Holding(s, sid) else 0
  {
    hide Held, Holding;
    HeldUpdate(s, r, sid, e);
  }

  /** And to those of endpoint e. */
  lemma HeldAfterDo(k: Settings, s: Pair, sid: uint32, a: Act, e: End)
    requires SettingsOk(k) && PairShape(s) && StreamsOk(k, s.g) && PairEnabled(k, s, Sys(Do(sid, a)))
    ensures Held(PairApply(k, s, Sys(Do(sid, a))), e)
      == Held(s, e) + if a.Receive? && Acceptor(sid) == e then Arriving(View(s.g, sid)) else 0
  {
    hide *;
    OthersHold(k, s, sid, a);
    HoldingAfterDo(k, s, sid, a);
    HeldMoves(s, PairApply(k, s, Sys(Do(sid, a))), sid, e);
  }

  lemma ArrivingFits(c: Config, l: Link)
    requires ConfigOk(c) && WireOk(c, l)
    ensures Arriving(l) <= MAX_PAYLOAD
  {}

  /** A push of n bytes is still to be charged; without one, the bucket and what is held stay as they are. */
  lemma TokensMoveOn(max: seq<int>, s: Pair, r: Pair, e: End, n: nat)
    requires BucketsOk(max) && PairShape(s) && PairShape(r) && TokensOk(max, s, e) && n <= MAX_PAYLOAD
    requires Held(r, e) == Held(s, e) + n && r.gates[e].bucket == s.gates[e].bucket
    requires n > 0 ==> s.gates[e].place.Reading? && r.gates[e].place == Charging(n)
    requires n == 0 ==> (r.gates[e].place == s.gates[e].place
      || (!s.gates[e].place.Charging? && (r.gates[e].place.Checking? || r.gates[e].place.Storing?)))
    ensures TokensOk(max, r, e)
  {
    hide Held;
    if !s.gates[e].place.Charging? {
      BucketIsExact(max, s, e);
    }
  }

  /** The place of a gate that a stream's step moves on. */
  predicate StoringKnown(s: Pair, e: End, sid: uint32, a: Act)
    requires PairShape(s)
  {
    && (a.Receive? && e == Acceptor(sid) ==> s.gates[e].place.Reading?)
    && (a.ParseUpdate? && e == Opener(sid) ==> s.gates[e].place.Reading?)
    && (a.Signal? && e == Opener(sid) ==> s.gates[e].place == Storing(sid))
  }

  lemma DoPlaces(k: Settings, s: Pair, sid: uint32, a: Act, e: End)
    requires SettingsOk(k) && PairShape(s) && StoringOk(s, e) && PairEnabled(k, s, Sys(Do(sid, a)))
    ensures StoringKnown(s, e, sid, a)
  {
    hide Only, WireAfter, GateAfterDo, ReceiverIdle;
  }

  lemma DoKeepsTokens(k: Settings, max: seq<int>, s: Pair, sid: uint32, a: Act, e: End)
    requires SettingsOk(k) && BucketsOk(max) && PairShape(s) && StreamsOk(k, s.g)
    requires TokensOk(max, s, e) && StoringKnown(s, e, sid, a) && PairEnabled(k, s, Sys(Do(sid, a)))
    ensures TokensOk(max, PairApply(k, s, Sys(Do(sid, a))), e)
  {
    var l := View(s.g, sid);
    ReachableWireOk(ConfigOf(k, sid), l);
    ArrivingFits(ConfigOf(k, sid), l);
    HeldAfterDo(k, s, sid, a, e);
    DoOnGates(k, s, sid, a, e);
    hide Enabled, Apply, WireOk, StreamsOk, Arriving, PairApply, Held, View, TokensOk, BucketsOk;
    var n := if a.Receive? && Acceptor(sid) == e then Arriving(l) else 0;
    TokensMoveOn(max, s, PairApply(k, s, Sys(Do(sid, a))), e, n);
  }

  /** A stream's update is taken in hand, or let go, together with the place of the gate. */
  lemma StoringMovesOn(s: Pair, r: Pair, sid: uint32, e: End)
    requires PairShape(s) && PairShape(r) && StoringOk(s, e) && sid in s.g.ends
    requires sid in r.g.ends && r.g.ends == s.g.ends[sid := r.g.ends[sid]]
    requires Opener(sid) == e ==> (r.g.ends[sid].updater.NoUpdate? <==> r.gates[e].place != Storing(sid))
    requires || r.gates[e].place == s.gates[e].place
             || (!s.gates[e].place.Storing? && !r.gates[e].place.Storing?)
             || (Opener(sid) == e && s.gates[e].place.Reading? && r.gates[e].place == Storing(sid))
             || (Opener(sid) == e && s.gates[e].place == Storing(sid) && r.gates[e].place.Checking?)
    ensures StoringOk(r, e)
  {}

  lemma DoKeepsStoring(k: Settings, s: Pair, sid: uint32, a: Act, e: End)
    requires SettingsOk(k) && PairShape(s) && StreamsOk(k, s.g) && StoringOk(s, e) && StoringKnown(s, e, sid, a)
    requires PairEnabled(k, s, Sys(Do(sid, a)))
    ensures StoringOk(PairApply(k, s, Sys(Do(sid, a))), e)
  {
    var l := View(s.g, sid);
    ReachableWireOk(ConfigOf(k, sid), l);
    LinkChanges(ConfigOf(k, sid), l, a);
    DoOnGates(k, s, sid, a, e);
    assert Opener(sid) == e ==> (l.updater.NoUpdate? <==> s.gates[e].place != Storing(sid));
    hide Apply, Enabled, WireOk, StreamsOk, Flat, Arriving, ReadCount, PairApply, PairEnabled, GivingAfterDo;
    hide View, StoringOk;
    StoringMovesOn(s, PairApply(k, s, Sys(Do(sid, a))), sid, e);
  }

  lemma DoKeepsSignalled(k: Settings, s: Pair, sid: uint32, a: Act, e: End)
    requires SettingsOk(k) && PairShape(s) && SignalledOk(s, e) && PairEnabled(k, s, Sys(Do(sid, a)))
    requires StoringKnown(s, e, sid, a)
    ensures SignalledOk(PairApply(k, s, Sys(Do(sid, a))), e)
  {
    DoOnGates(k, s, sid, a, e);
    hide Apply, Enabled, View, Arriving, ReadCount, SysApply, SysEnabled, PairApply;
    var r := PairApply(k, s, Sys(Do(sid, a)));
    if r.gates[e].place.Parked? && r.gates[e].bucket > 0 && !r.gates[e].notify {
      var x :| x in s.giving && Acceptor(x) == e && s.giving[x].Notifying?;
      assert x in r.giving && r.giving[x] == s.giving[x];
    }
  }

  /** The bucket is looked at. */
  lemma TokensChecked(max: seq<int>, s: Pair, r: Pair, e: End)
    requires BucketsOk(max) && PairShape(s) && PairShape(r) && TokensOk(max, s, e) && s.gates[e].place.Checking?
    requires Held(r, e) == Held(s, e) && r.gates[e].bucket == s.gates[e].bucket
    requires r.gates[e].place == if s.gates[e].bucket <= 0 then Parked else Reading
    ensures TokensOk(max, r, e)
  {
    hide Held;
    BucketIsExact(max, s, e);
  }

  /** The bytes pushed are charged. */
  lemma TokensCharged(max: seq<int>, s: Pair, r: Pair, e: End)
    requires BucketsOk(max) && PairShape(s) && PairShape(r) && TokensOk(max, s, e) && s.gates[e].place.Charging?
    requires Held(r, e) == Held(s, e) && r.gates[e].place.Checking?
    requires r.gates[e].bucket == I32(s.gates[e].bucket - s.gates[e].place.n)
    ensures TokensOk(max, r, e)
  {
    var n: int := s.gates[e].place.n;
    var left := max[e] - Held(s, e);
    I32Add(left + n, -n);
    assert I32(left + n - n) == I32(left);
    hide *;
  }

  lemma MoreLeft(m: int, h: int, h': int, u: int, n: int)
    requires h' == h - n
    ensures I32(I32(m - h + u) + n) == I32(m - h' + u)
  {
    I32Add(m - h + u, n);
    assert m - h + u + n == m - h' + u;
  }

  /** n tokens go back. */
  lemma TokensGivenBack(max: seq<int>, s: Pair, r: Pair, e: End, n: nat)
    requires BucketsOk(max) && PairShape(s) && PairShape(r) && TokensOk(max, s, e)
    requires Held(r, e) == Held(s, e) - n && r.gates[e].place == s.gates[e].place
    requires r.gates[e].bucket == I32(s.gates[e].bucket + n)
    ensures TokensOk(max, r, e)
  {
    hide Held, I32, Uncharged;
    MoreLeft(max[e], Held(s, e), Held(r, e), Uncharged(s.gates[e].place), n);
  }

  lemma SameStoring(s: Pair, r: Pair, e: End)
    requires PairShape(s) && PairShape(r) && StoringOk(s, e) && r.g.ends == s.g.ends
    requires r.gates[e].place == s.gates[e].place || (!s.gates[e].place.Storing? && !r.gates[e].place.Storing?)
    ensures StoringOk(r, e)
  {}

  lemma SameSignals(s: Pair, r: Pair, e: End)
    requires PairShape(s) && PairShape(r) && SignalledOk(s, e) && r.giving == s.giving
    requires r.gates[e].bucket == s.gates[e].bucket && (s.gates[e].notify ==> r.gates[e].notify)
    requires r.gates[e].place.Parked? ==> s.gates[e].place.Parked?
    ensures SignalledOk(r, e)
  {}

  lemma OpenChanges(k: Settings, s: Pair, d: End) returns (sid: uint32)
    requires SettingsOk(k) && PairShape(s) && IdsOk(s.g) && PairEnabled(k, s, Sys(OpenStream(d)))
    ensures sid !in s.g.ends
    ensures var r := PairApply(k, s, Sys(OpenStream(d)));
      && r.gates == s.gates && r.giving == s.giving
      && (r.g.ends == s.g.ends || r.g.ends == s.g.ends[sid := START])
  {
    OpenIsFresh(s.g, d);
    sid := Add32(s.g.nextId[d], 2);
    hide Add32;
  }

  lemma OpenKeepsGate(k: Settings, max: seq<int>, s: Pair, d: End, e: End)
    requires SettingsOk(k) && BucketsOk(max) && PairShape(s) && IdsOk(s.g) && GivingOk(s) && GateOk(max, s, e)
    requires PairEnabled(k, s, Sys(OpenStream(d)))
    ensures GateOk(max, PairApply(k, s, Sys(OpenStream(d))), e)
  {
    var r := PairApply(k, s, Sys(OpenStream(d)));
    hide BucketsOk, TokensOk, SignalledOk, PairApply, PairEnabled, Held, Add32;
    var sid := OpenChanges(k, s, d);
    SameSignals(s, r, e);
    StoringWithNew(s, r, sid, e);
    hide StoringOk;
    HeldWithNew(s, r, sid, e);
    TokensMoveOn(max, s, r, e, 0);
  }

  lemma HeldWithNew(s: Pair, r: Pair, sid: uint32, e: End)
    requires GivingOk(s) && r.giving == s.giving && sid !in s.g.ends
    requires r.g.ends == s.g.ends || r.g.ends == s.g.ends[sid := START]
    ensures Held(r, e) == Held(s, e)
  {
    hide Held;
    if r.g.ends == s.g.ends {
      SameHeld(s, r, e);
    } else {
      assert Holding(r, sid) == 0;
      HeldUpdate(s, r, sid, e);
    }
  }

  lemma StoringWithNew(s: Pair, r: Pair, sid: uint32, e: End)
    requires PairShape(s) && PairShape(r) && StoringOk(s, e) && r.gates == s.gates && sid !in s.g.ends
    requires r.g.ends == s.g.ends || r.g.ends == s.g.ends[sid := START]
    ensures StoringOk(r, e)
  {}

  lemma NopKeepsGate(k: Settings, max: seq<int>, s: Pair, x: SysAct, e: End)
    requires SettingsOk(k) && BucketsOk(max) && PairShape(s) && GateOk(max, s, e) && (x.SendNop? || x.ReceiveNop?)
    requires PairEnabled(k, s, Sys(x))
    ensures GateOk(max, PairApply(k, s, Sys(x)), e)
  {
    hide BucketsOk, TokensOk, StoringOk, SignalledOk, Held;
    var r := PairApply(k, s, Sys(x));
    SameHeld(s, r, e);
    TokensMoveOn(max, s, r, e, 0);
    SameStoring(s, r, e);
    SameSignals(s, r, e);
  }

  lemma PingKeepsGate(k: Settings, max: seq<int>, s: Pair, d: End, e: End)
    requires SettingsOk(k) && BucketsOk(max) && PairShape(s) && GateOk(max, s, e)
    ensures GateOk(max, PairApply(k, s, Ping(d)), e)
  {
    hide BucketsOk, TokensOk, StoringOk, SignalledOk, Held;
    var r := PairApply(k, s, Ping(d));
    SameHeld(s, r, e);
    TokensMoveOn(max, s, r, e, 0);
    SameStoring(s, r, e);
    SameSignals(s, r, e);
  }

  lemma WakeKeepsGate(k: Settings, max: seq<int>, s: Pair, d: End, e: End)
    requires SettingsOk(k) && BucketsOk(max) && PairShape(s) && GateOk(max, s, e)
    requires PairEnabled(k, s, WakeReceiver(d))
    ensures GateOk(max, PairApply(k, s, WakeReceiver(d)), e)
  {
    hide BucketsOk, TokensOk, StoringOk, Held;
    var r := PairApply(k, s, WakeReceiver(d));
    SameHeld(s, r, e);
    TokensMoveOn(max, s, r, e, 0);
    SameStoring(s, r, e);
    if d != e {
      SameSignals(s, r, e);
    }
  }

  lemma CheckKeepsGate(k: Settings, max: seq<int>, s: Pair, d: End, e: End)
    requires SettingsOk(k) && BucketsOk(max) && PairShape(s) && GateOk(max, s, e)
    requires PairEnabled(k, s, CheckBucket(d))
    ensures GateOk(max, PairApply(k, s, CheckBucket(d)), e)
  {
    hide BucketsOk, TokensOk, StoringOk, Held;
    var r := PairApply(k, s, CheckBucket(d));
    SameHeld(s, r, e);
    SameStoring(s, r, e);
    if d == e {
      TokensChecked(max, s, r, e);
    } else {
      TokensMoveOn(max, s, r, e, 0);
      SameSignals(s, r, e);
    }
  }

  lemma ChargeKeepsGate(k: Settings, max: seq<int>, s: Pair, d: End, e: End)
    requires SettingsOk(k) && BucketsOk(max) && PairShape(s) && GateOk(max, s, e)
    requires PairEnabled(k, s, Charge(d))
    ensures GateOk(max, PairApply(k, s, Charge(d)), e)
  {
    hide BucketsOk, TokensOk, StoringOk, Held, I32;
    var r := PairApply(k, s, Charge(d));
    SameHeld(s, r, e);
    SameStoring(s, r, e);
    if d == e {
      TokensCharged(max, s, r, e);
    } else {
      TokensMoveOn(max, s, r, e, 0);
      SameSignals(s, r, e);
    }
  }

  /** Another goroutine that is about to notify still is. */
  lemma OtherNotifiers(s: Pair, r: Pair, sid: uint32, e: End)
    requires PairShape(s) && PairShape(r) && SignalledOk(s, e) && r.gates[e].place == s.gates[e].place
    requires sid in r.giving && r.giving == s.giving[sid := r.giving[sid]]
    requires r.gates[e].bucket > 0 ==>
      if Acceptor(sid) == e then r.gates[e].notify || r.giving[sid].Notifying?
      else r.gates[e].bucket == s.gates[e].bucket && r.gates[e].notify == s.gates[e].notify
    ensures SignalledOk(r, e)
  {
    assert forall x :: x in s.giving && x != sid ==> x in r.giving && r.giving[x] == s.giving[x];
  }

  lemma ReturnKeepsGate(k: Settings, max: seq<int>, s: Pair, sid: uint32, e: End)
    requires SettingsOk(k) && BucketsOk(max) && PairShape(s) && GivingOk(s) && GateOk(max, s, e)
    requires PairEnabled(k, s, Return(sid))
    ensures GateOk(max, PairApply(k, s, Return(sid)), e)
  {
    hide BucketsOk, TokensOk, StoringOk, SignalledOk, Held, I32, Flat;
    var r := PairApply(k, s, Return(sid));
    HeldUpdate(s, r, sid, e);
    SameStoring(s, r, e);
    OtherNotifiers(s, r, sid, e);
    TokensGivenBack(max, s, r, e, if Acceptor(sid) == e then s.giving[sid].n else 0) by {
      if Acceptor(sid) != e {
        StillExact(max, s, e);
      }
    }
  }

  lemma StillExact(max: seq<int>, s: Pair, e: End)
    requires BucketsOk(max) && PairShape(s) && TokensOk(max, s, e)
    ensures I32(s.gates[e].bucket + 0) == s.gates[e].bucket
  {
    hide Held, I32, Uncharged;
    I32Add(max[e] - Held(s, e) + Uncharged(s.gates[e].place), 0);
  }

  lemma NotifyKeepsGate(k: Settings, max: seq<int>, s: Pair, sid: uint32, e: End)
    requires SettingsOk(k) && BucketsOk(max) && PairShape(s) && GivingOk(s) && GateOk(max, s, e)
    requires PairEnabled(k, s, NotifyBucket(sid))
    ensures GateOk(max, PairApply(k, s, NotifyBucket(sid)), e)
  {
    hide BucketsOk, TokensOk, StoringOk, SignalledOk, Held, I32, Flat;
    var r := PairApply(k, s, NotifyBucket(sid));
    SameHeld(s, r, e);
    SameStoring(s, r, e);
    OtherNotifiers(s, r, sid, e);
    TokensMoveOn(max, s, r, e, 0);
  }

  lemma DoKeepsGate(k: Settings, max: seq<int>, s: Pair, sid: uint32, a: Act, e: End)
    requires SettingsOk(k) && BucketsOk(max) && PairShape(s) && StreamsOk(k, s.g) && GateOk(max, s, e)
    requires PairEnabled(k, s, Sys(Do(sid, a)))
    ensures GateOk(max, PairApply(k, s, Sys(Do(sid, a))), e)
  {
    hide BucketsOk, TokensOk, StoringOk, SignalledOk, StreamsOk, StoringKnown, PairApply, PairEnabled;
    DoPlaces(k, s, sid, a, e);
    DoKeepsTokens(k, max, s, sid, a, e);
    DoKeepsStoring(k, s, sid, a, e);
    DoKeepsSignalled(k, s, sid, a, e);
  }

  lemma GateOkKept(k: Settings, max: seq<int>, s: Pair, a: PairAct, e: End)
    requires SettingsOk(k) && BucketsOk(max) && PairInv(k, max, s) && PairEnabled(k, s, a)
    ensures GateOk(max, PairApply(k, s, a), e)
  {
    hide BucketsOk, GateOk, PairApply, PairEnabled, IdsOk;
    match a
    case Sys(OpenStream(d)) => OpenKeepsGate(k, max, s, d, e);
    case Sys(Do(sid, b)) => DoKeepsGate(k, max, s, sid, b, e);
    case Sys(x) => NopKeepsGate(k, max, s, x, e);
    case CheckBucket(d) => CheckKeepsGate(k, max, s, d, e);
    case WakeReceiver(d) => WakeKeepsGate(k, max, s, d, e);
    case Charge(d) => ChargeKeepsGate(k, max, s, d, e);
    case Return(sid) => ReturnKeepsGate(k, max, s, sid, e);
    case NotifyBucket(sid) => NotifyKeepsGate(k, max, s, sid, e);
    case Ping(d) => PingKeepsGate(k, max, s, d, e);
  }

  lemma EndsStay(k: Settings, s: Pair, a: PairAct)
    requires SettingsOk(k) && PairShape(s) && GivingOk(s) && PairEnabled(k, s, a)
    ensures s.g.ends.Keys <= PairApply(k, s, a).g.ends.Keys && GivingOk(PairApply(k, s, a))
  {
    hide Apply, Enabled, View, ReadCount, GateAfterDo, WireAfter, I32;
  }

  lemma PairInvKept(k: Settings, max: seq<int>, s: Pair, a: PairAct)
    requires SettingsOk(k) && BucketsOk(max) && PairInv(k, max, s) && PairEnabled(k, s, a)
    ensures PairInv(k, max, PairApply(k, s, a))
  {
    if a.Sys? {
      StreamsOkKept(k, s.g, a.s) by { hide StreamsOk, SysEnabled; }
    }
    EndsStay(k, s, a);
    forall e: End
      ensures GateOk(max, PairApply(k, s, a), e)
    {
      GateOkKept(k, max, s, a, e) by { hide PairInv, PairEnabled, PairApply; }
    }
    hide StreamsOk, GateOk, GivingOk, PairEnabled, PairApply;
  }

  lemma {:induction false} RunKeepsPairInv(k: Settings, max: seq<int>, s: Pair, acts: seq<PairAct>)
    requires SettingsOk(k) && BucketsOk(max) && PairInv(k, max, s) && PairRuns(k, s, acts)
    ensures PairInv(k, max, PairAfter(k, s, acts))
    decreases |acts|
  {
    hide PairApply, PairEnabled, StreamsOk, GateOk, GivingOk;
    if acts != [] {
      PairInvKept(k, max, s, acts[0]);
      RunKeepsPairInv(k, max, PairApply(k, s, acts[0]), acts[1..]);
    }
  }

  lemma StartGate(max: seq<int>, e: End)
    requires BucketsOk(max)
    ensures GateOk(max, Start(max), e)
  {
    assert Holdings(Start(max), e) == map[];
    assert Held(Start(max), e) == 0;
    hide Held, I32;
  }

  lemma StartHolds(k: Settings, max: seq<int>)
    requires SettingsOk(k) && BucketsOk(max)
    ensures PairInv(k, max, Start(max))
  {
    StartGate(max, 0);
    StartGate(max, 1);
    assert SysRuns(k, NOTHING, []) && SysAfter(k, NOTHING, []) == NOTHING;
    SysReachableOk(k, NOTHING);
    hide GateOk, BucketsOk, SettingsOk, StreamsOk, SysReachable;
  }

  lemma PairReachableInv(k: Settings, max: seq<int>, s: Pair)
    requires SettingsOk(k) && BucketsOk(max) && PairReachable(k, max, s)
    ensures PairInv(k, max, s)
  {
    hide PairInv, PairApply, PairEnabled;
    StartHolds(k, max);
    var acts :| PairRuns(k, Start(max), acts) && PairAfter(k, Start(max), acts) == s;
    RunKeepsPairInv(k, max, Start(max), acts);
  }

  /** Token conservation over all streams at both ends: outside of a push the int32 bucket is exactly what is left of
      its first value, and the streams never hold a whole payload more than that; nothing at all if it was not
      positive. */
  lemma PairTokens(k: Settings, max: seq<int>, s: Pair, e: End)
    requires SettingsOk(k) && BucketsOk(max) && PairReachable(k, max, s)
    ensures PairShape(s)
    ensures !s.gates[e].place.Charging? ==> s.gates[e].bucket == max[e] - Held(s, e)
    ensures Held(s, e) <= if max[e] > 0 then max[e] + MAX_PAYLOAD - 1 else 0
    ensures max[e] <= 0 ==> !s.gates[e].place.Reading?
  {
    PairReachableInv(k, max, s);
    assert GateOk(max, s, e);
    if !s.gates[e].place.Charging? {
      BucketIsExact(max, s, e);
    }
    hide Held, I32, StreamsOk;
  }
}
