/** When a writer of the whole system can be left waiting for ever: the exact condition on windows and buckets. */
module GatedDeadlock {
  import opened Arith
  import opened Wire
  import opened StreamLink
  import opened Mux
  import opened Gated
  import opened GatedProgress
  import R = Receive
  import Deadlock

  // ---------- What a step of the system is to one stream ----------

  lemma OpenKeepsView(k: Settings, g: System, e: End, sid: uint32)
    requires SettingsOk(k) && IdsOk(g) && SysEnabled(k, g, OpenStream(e)) && sid in g.ends
    ensures var r := SysApply(k, g, OpenStream(e)); sid in r.ends && View(r, sid) == View(g, sid)
  {
    OpenIsFresh(g, e);
    hide Only;
  }

  /** Either it is one of the stream's own steps, or the stream looks as before. */
  lemma StepOrStay(k: Settings, s: Pair, a: PairAct, sid: uint32)
    requires SettingsOk(k) && PairShape(s) && IdsOk(s.g) && PairEnabled(k, s, a) && sid in s.g.ends
    ensures var g := PairApply(k, s, a).g;
      && sid in g.ends
      && (View(g, sid) == View(s.g, sid)
          || (a.Sys? && a.s.Do? && a.s.sid == sid && View(g, sid) == Apply(ConfigOf(k, sid), View(s.g, sid), a.s.a)))
  {
    hide View, Apply, Enabled, SysApply, SysEnabled, IdsOk;
    match a
    case Sys(OpenStream(e)) => OpenKeepsView(k, s.g, e, sid);
    case Sys(Do(x, b)) =>
      DoOnGates(k, s, x, b, 0);
      if x == sid {
        DoProjects(k, s.g, sid, b);
      } else {
        DoLeavesOthers(k, s.g, x, b, sid);
      }
    case Sys(x) => NopKeepsView(k, s.g, x, sid);
    case _ =>
  }

  // ---------- States that a writer never leaves ----------

  /** A stream of the system that is stuck in the sense of Deadlock stays so. */
  lemma StuckStays(k: Settings, s: Pair, a: PairAct, sid: uint32)
    requires SettingsOk(k) && PairShape(s) && StreamsOk(k, s.g) && PairEnabled(k, s, a) && sid in s.g.ends
    requires Deadlock.Stuck(View(s.g, sid))
    ensures var g := PairApply(k, s, a).g;
      sid in g.ends && Deadlock.Stuck(View(g, sid)) && Sent(View(g, sid)) == Sent(View(s.g, sid))
  {
    StepOrStay(k, s, a, sid);
    if a.Sys? && a.s.Do? && a.s.sid == sid {
      ReachableInv(ConfigOf(k, sid), View(s.g, sid));
      Deadlock.StuckStays(ConfigOf(k, sid), View(s.g, sid), a.s.a) by {
        hide Deadlock.Stuck, Inv, Enabled, View;
      }
    }
    hide Deadlock.Stuck, Inv, Enabled, View, Apply, Sent, PairApply, PairEnabled, StreamsOk;
  }

  /** The bucket of e has no token and never gets one: if e opened the stream no update is ever stored, and otherwise
      the stream is never even registered there; and the writer waits for an update. */
  predicate Shut(l: Link, sid: uint32, e: End) {
    && l.writer.Blocked? && !l.chUpdate && l.updater.NoUpdate?
    && (e == Acceptor(sid) ==> !l.registered && l.reader.Ready? && l.back == [])
  }

  lemma ShutByLink(c: Config, l: Link, b: Act, sid: uint32, e: End)
    requires Shut(l, sid, e) && Enabled(c, l, b)
    requires if e == Acceptor(sid) then !b.Receive? else !b.ParseUpdate?
    ensures Shut(Apply(c, l, b), sid, e) && Sent(Apply(c, l, b)) == Sent(l)
  {
    assert !WriterStep(b);
    if UpdaterStep(b) {
      ByUpdater(c, l, b);
      hide Apply, AfterParse;
    } else {
      ByAcceptor(c, l, b);
      hide Apply, AfterTryRead, AfterReceive;
    }
  }

  lemma ShutStays(k: Settings, max: seq<int>, s: Pair, a: PairAct, sid: uint32, e: End)
    requires SettingsOk(k) && BucketsOk(max) && PairInv(k, max, s) && PairEnabled(k, s, a) && sid in s.g.ends
    requires max[e] <= 0 && Shut(View(s.g, sid), sid, e)
    ensures var g := PairApply(k, s, a).g;
      sid in g.ends && Shut(View(g, sid), sid, e) && Sent(View(g, sid)) == Sent(View(s.g, sid))
  {
    assert GateOk(max, s, e);
    assert !s.gates[e].place.Reading? by { hide StreamsOk, Held, I32; }
    StepOrStay(k, s, a, sid);
    if a.Sys? && a.s.Do? && a.s.sid == sid {
      ShutByLink(ConfigOf(k, sid), View(s.g, sid), a.s.a, sid, e) by {
        hide Shut, StreamsOk, GateOk, Enabled, View;
      }
    }
    hide Shut, StreamsOk, GateOk, Enabled, View, Apply, Sent, PairApply, PairEnabled;
  }

  /** A stream that never sends again, whatever happens: new streams, calls and timers included. */
  ghost predicate NeverSends(k: Settings, s: Pair, sid: uint32)
    requires SettingsOk(k) && PairShape(s) && sid in s.g.ends
  {
    forall acts :: PairRuns(k, s, acts) ==>
      sid in PairAfter(k, s, acts).g.ends && Sent(PairAfter(k, s, acts).g.ends[sid]) == Sent(s.g.ends[sid])
  }

  lemma {:induction false} StuckInRuns(k: Settings, max: seq<int>, s: Pair, acts: seq<PairAct>, sid: uint32)
    requires SettingsOk(k) && BucketsOk(max) && PairInv(k, max, s) && PairRuns(k, s, acts) && sid in s.g.ends
    requires Deadlock.Stuck(View(s.g, sid))
    ensures var g := PairAfter(k, s, acts).g; sid in g.ends && Sent(g.ends[sid]) == Sent(s.g.ends[sid])
    decreases |acts|
  {
    hide BucketsOk, StreamsOk, GateOk, GivingOk, PairEnabled, PairApply, SettingsOk, Deadlock.Stuck, View, Sent;
    if acts != [] {
      StuckStays(k, s, acts[0], sid);
      PairInvKept(k, max, s, acts[0]);
      ViewSent(s.g, sid);
      ViewSent(PairApply(k, s, acts[0]).g, sid);
      StuckInRuns(k, max, PairApply(k, s, acts[0]), acts[1..], sid);
    }
  }

  lemma {:induction false} ShutInRuns(k: Settings, max: seq<int>, s: Pair, acts: seq<PairAct>, sid: uint32, e: End)
    requires SettingsOk(k) && BucketsOk(max) && PairInv(k, max, s) && PairRuns(k, s, acts) && sid in s.g.ends
    requires max[e] <= 0 && Shut(View(s.g, sid), sid, e)
    ensures var g := PairAfter(k, s, acts).g; sid in g.ends && Sent(g.ends[sid]) == Sent(s.g.ends[sid])
    decreases |acts|
  {
    hide StreamsOk, GateOk, GivingOk, PairEnabled, PairApply, SettingsOk, Shut, View, Sent;
    if acts != [] {
      ShutStays(k, max, s, acts[0], sid, e);
      PairInvKept(k, max, s, acts[0]);
      ViewSent(s.g, sid);
      ViewSent(PairApply(k, s, acts[0]).g, sid);
      ShutInRuns(k, max, PairApply(k, s, acts[0]), acts[1..], sid, e);
    }
  }

  // ---------- One stream alone in the system ----------

  /** The system holds one stream, which looks as l does; nothing is owed or being charged, and no NOP is about. */
  ghost predicate Alone(k: Settings, max: seq<int>, s: Pair, sid: uint32, l: Link)
    requires SettingsOk(k) && BucketsOk(max)
  {
    && PairReachable(k, max, s) && PairShape(s) && s.g.ends.Keys == {sid} && View(s.g, sid) == l
    && GivingOf(s, sid).Nothing?
    && (forall e: End :: !s.gates[e].place.Charging?)
    && (forall e: End, i :: 0 <= i < |s.g.wires[e]| ==> s.g.wires[e][i].Packet?)
  }

  lemma NothingElseHeld(k: Settings, max: seq<int>, s: Pair, sid: uint32, l: Link, e: End)
    requires SettingsOk(k) && BucketsOk(max) && Alone(k, max, s, sid, l) && (e == Acceptor(sid) ==> l.buffers == [])
    ensures Held(s, e) == 0
  {
    hide PairReachable, R.Total, Only;
    var none: map<nat, nat> := map[];
    NoTotal(none);
    if e == Acceptor(sid) {
      assert Holding(s, sid) == 0;
      assert Holdings(s, e) == none[sid := 0];
      R.TotalUpdate(none, sid, 0);
    } else {
      assert Holdings(s, e) == none;
    }
  }

  lemma NoTotal(m: map<nat, nat>)
    requires m == map[]
    ensures R.Total(m) == 0
  {}

  lemma OnlySomething(ps: seq<Packet>, sid: uint32)
    requires Only(ps, sid) != []
    ensures ps != []
  {}

  /** Every frame at the head of a wire is the only stream's. */
  lemma HeadIsIts(k: Settings, max: seq<int>, s: Pair, sid: uint32, l: Link, e: End)
    requires SettingsOk(k) && BucketsOk(max) && Alone(k, max, s, sid, l) && s.g.wires[e] != []
    ensures HeadIs(s.g.wires[e], sid)
  {
    PairRefinesSystem(k, max, s);
    assert IdsOk(s.g);
    hide PairReachable, SysReachable, StreamsOk, View, SettingsOk, BucketsOk;
    assert s.g.wires[e][0].Packet? && s.g.wires[e][0].sid in s.g.ends.Keys;
  }

  lemma HeadsAreIts(k: Settings, max: seq<int>, s: Pair, sid: uint32, l: Link, a: Act)
    requires SettingsOk(k) && BucketsOk(max) && Alone(k, max, s, sid, l) && Enabled(ConfigOf(k, sid), l, a)
    ensures SysEnabled(k, s.g, Do(sid, a))
  {
    assert s.g.ends.Keys == {sid} && sid in s.g.ends.Keys;
    assert ReceiverIdle(s.g, Acceptor(sid));
    if a.Receive? {
      OnlySomething(s.g.wires[Opener(sid)], sid);
      HeadIsIts(k, max, s, sid, l, Opener(sid));
    } else if a.ParseUpdate? {
      OnlySomething(s.g.wires[Acceptor(sid)], sid);
      HeadIsIts(k, max, s, sid, l, Acceptor(sid));
      assert ReceiverIdle(s.g, Opener(sid));
    }
    hide PairReachable, Only, SettingsOk, BucketsOk, HeadIs, ReceiverIdle;
  }

  predicate AllPackets(ps: seq<Packet>) {
    forall i :: 0 <= i < |ps| ==> ps[i].Packet?
  }

  lemma StaysPackets(k: Settings, g: System, sid: uint32, a: Act, e: End)
    requires SettingsOk(k) && Shape(g) && SysEnabled(k, g, Do(sid, a)) && AllPackets(g.wires[e])
    ensures AllPackets(SysApply(k, g, Do(sid, a)).wires[e])
  {
    WiresAfterDo(k, g, sid, a, e);
    hide SysApply, Apply, Enabled, ReceiverIdle, View;
    var w, r := g.wires[e], WireAfter(k, g, sid, a, e);
    assert r == w || (|w| > 0 && r == w[1..]) || (|r| == |w| + 1 && r[..|w|] == w && r[|w|].Packet?);
    hide WireAfter, SysEnabled;
    forall i | 0 <= i < |r|
      ensures r[i].Packet?
    {
      assert r == w ==> r[i] == w[i];
      assert |r| == |w| + 1 && i < |w| ==> r[i] == r[..|w|][i];
    }
  }

  /** The system after one of the stream's own steps, when the gates admit it. */
  lemma StepAlone(k: Settings, max: seq<int>, s: Pair, sid: uint32, l: Link, a: Act) returns (r: Pair)
    requires SettingsOk(k) && BucketsOk(max) && Alone(k, max, s, sid, l) && Enabled(ConfigOf(k, sid), l, a)
    requires a.Receive? ==> s.gates[Acceptor(sid)].place.Reading?
    requires a.ParseUpdate? ==> s.gates[Opener(sid)].place.Reading?
    ensures PairReachable(k, max, r) && PairShape(r) && r.g.ends.Keys == {sid}
    ensures View(r.g, sid) == Apply(ConfigOf(k, sid), l, a) && r.giving == GivingAfterDo(s, sid, a)
    ensures forall e: End :: r.gates[e] == GateAfterDo(s, sid, a, e) && AllPackets(r.g.wires[e])
  {
    hide PairReachable, View, Enabled, Apply, SettingsOk, BucketsOk, SysEnabled, SysApply, GateAfterDo, GivingAfterDo;
    hide ConfigOf;
    HeadsAreIts(k, max, s, sid, l, a);
    r := PairStep(k, max, s, Sys(Do(sid, a)));
    DoProjects(k, s.g, sid, a);
    DoOnGates(k, s, sid, a, 0);
    DoOnGates(k, s, sid, a, 1);
    assert AllPackets(s.g.wires[0]) && AllPackets(s.g.wires[1]);
    StaysPackets(k, s.g, sid, a, 0);
    StaysPackets(k, s.g, sid, a, 1);
    hide PairApply, PairEnabled, AllPackets;
  }

  /** A step of a gate leaves the stream alone. */
  lemma GateStepAlone(k: Settings, max: seq<int>, s: Pair, sid: uint32, l: Link, a: PairAct) returns (r: Pair)
    requires SettingsOk(k) && BucketsOk(max) && Alone(k, max, s, sid, l) && PairEnabled(k, s, a)
    requires a.CheckBucket? || a.WakeReceiver?
    ensures r == PairApply(k, s, a) && Alone(k, max, r, sid, l)
  {
    hide PairReachable, View, SettingsOk, BucketsOk;
    r := PairStep(k, max, s, a);
  }

  /** With no token held recvLoop has all of them, and is told so. */
  lemma AllTokensBack(k: Settings, max: seq<int>, s: Pair, sid: uint32, l: Link, e: End)
    requires SettingsOk(k) && BucketsOk(max) && Alone(k, max, s, sid, l) && max[e] > 0
    requires e == Acceptor(sid) ==> l.buffers == []
    requires e == Opener(sid) ==> l.updater.NoUpdate?
    ensures s.gates[e].bucket == max[e] && !s.gates[e].place.Storing?
    ensures s.gates[e].place.Parked? ==> s.gates[e].notify
  {
    PairReachableInv(k, max, s);
    NothingElseHeld(k, max, s, sid, l, e);
    assert GateOk(max, s, e);
    BucketIsExact(max, s, e);
    assert s.g.ends[sid].updater == l.updater && sid in s.g.ends;
    assert !s.gates[e].place.Storing?;
    hide PairReachable, StreamsOk, SettingsOk, BucketsOk, Held, I32, StoringOk, TokensOk, View;
    assert forall x <- s.giving :: x == sid;
  }

  /** So it comes back to reading. */
  lemma BackToReading(k: Settings, max: seq<int>, s: Pair, sid: uint32, l: Link, e: End) returns (r: Pair)
    requires SettingsOk(k) && BucketsOk(max) && Alone(k, max, s, sid, l) && max[e] > 0
    requires e == Acceptor(sid) ==> l.buffers == []
    requires e == Opener(sid) ==> l.updater.NoUpdate?
    ensures Alone(k, max, r, sid, l) && r.gates[e].place.Reading?
  {
    AllTokensBack(k, max, s, sid, l, e);
    assert PairShape(s) && !s.gates[e].place.Charging?;
    hide Alone;
    r := s;
    if r.gates[e].place.Parked? {
      r := GateStepAlone(k, max, r, sid, l, WakeReceiver(e));
    }
    if r.gates[e].place.Checking? {
      r := GateStepAlone(k, max, r, sid, l, CheckBucket(e));
    }
  }

  // ---------- A run of one stream is a run of the system ----------

  /** recvLoop charges what it has pushed. */
  lemma ReceiveAlone(k: Settings, max: seq<int>, s: Pair, sid: uint32, l: Link) returns (r: Pair)
    requires SettingsOk(k) && BucketsOk(max) && Alone(k, max, s, sid, l) && Enabled(ConfigOf(k, sid), l, Receive)
    requires l.buffers == [] && max[Acceptor(sid)] > 0
    ensures Alone(k, max, r, sid, Apply(ConfigOf(k, sid), l, Receive))
  {
    var e := Acceptor(sid);
    r := BackToReading(k, max, s, sid, l, e);
    var u := StepAlone(k, max, r, sid, l, Receive);
    assert forall d: End :: d != e ==> u.gates[d] == r.gates[d];
    assert u.giving == r.giving;
    hide PairReachable, View, Enabled, Apply, SettingsOk, BucketsOk, Arriving, I32;
    r := u;
    if r.gates[e].place.Charging? {
      r := PairStep(k, max, r, Charge(e));
    }
  }

  lemma ParseAlone(k: Settings, max: seq<int>, s: Pair, sid: uint32, l: Link) returns (r: Pair)
    requires SettingsOk(k) && BucketsOk(max) && Alone(k, max, s, sid, l)
    requires Enabled(ConfigOf(k, sid), l, ParseUpdate) && max[Opener(sid)] > 0
    ensures Alone(k, max, r, sid, Apply(ConfigOf(k, sid), l, ParseUpdate))
  {
    r := BackToReading(k, max, s, sid, l, Opener(sid));
    r := StepAlone(k, max, r, sid, l, ParseUpdate);
    hide PairReachable, View, Enabled, Apply, SettingsOk, BucketsOk;
  }

  /** The reader gives back what it has taken. */
  lemma ReadAlone(k: Settings, max: seq<int>, s: Pair, sid: uint32, l: Link, n: nat) returns (r: Pair)
    requires SettingsOk(k) && BucketsOk(max) && Alone(k, max, s, sid, l) && Enabled(ConfigOf(k, sid), l, TryRead(n))
    ensures Alone(k, max, r, sid, Apply(ConfigOf(k, sid), l, TryRead(n)))
  {
    r := StepAlone(k, max, s, sid, l, TryRead(n));
    hide PairReachable, View, Enabled, Apply, SettingsOk, BucketsOk, ReadCount;
    r := GivesBack(k, max, r, sid);
  }

  /** returnTokens after a read. */
  lemma GivesBack(k: Settings, max: seq<int>, s: Pair, sid: uint32) returns (r: Pair)
    requires SettingsOk(k) && BucketsOk(max) && PairReachable(k, max, s) && PairShape(s)
    ensures PairReachable(k, max, r) && PairShape(r) && r.g == s.g && GivingOf(r, sid).Nothing?
    ensures forall e: End :: r.gates[e].place == s.gates[e].place
  {
    hide PairReachable, SettingsOk, BucketsOk, I32;
    r := s;
    if GivingOf(r, sid).Owes? {
      r := PairStep(k, max, r, Return(sid));
    }
    if GivingOf(r, sid).Notifying? {
      r := PairStep(k, max, r, NotifyBucket(sid));
    }
  }

  /** A calm step is allowed by the gates if there are tokens, or needs none. */
  ghost predicate Payable(max: seq<int>, a: Act) {
    Supplied(max) || !(a.Receive? || a.ParseUpdate?)
  }

  lemma LiftStep(k: Settings, max: seq<int>, s: Pair, sid: uint32, l: Link, a: Act) returns (r: Pair)
    requires SettingsOk(k) && BucketsOk(max) && Alone(k, max, s, sid, l) && Enabled(ConfigOf(k, sid), l, a)
    requires Deadlock.Calm(l, a) && Payable(max, a)
    ensures Alone(k, max, r, sid, Apply(ConfigOf(k, sid), l, a))
  {
    if a.Receive? {
      r := ReceiveAlone(k, max, s, sid, l);
    } else if a.ParseUpdate? {
      r := ParseAlone(k, max, s, sid, l);
    } else if a.TryRead? {
      r := ReadAlone(k, max, s, sid, l, a.max);
    } else {
      r := StepAlone(k, max, s, sid, l, a);
      hide PairReachable, View, Enabled, Apply, SettingsOk, BucketsOk;
    }
  }

  lemma {:induction false} LiftRun(k: Settings, max: seq<int>, s: Pair, sid: uint32, l: Link, acts: seq<Act>)
    returns (r: Pair)
    requires SettingsOk(k) && BucketsOk(max) && Alone(k, max, s, sid, l) && RunsFrom(ConfigOf(k, sid), l, acts)
    requires Deadlock.CalmRun(ConfigOf(k, sid), l, acts) && forall a <- acts :: Payable(max, a)
    ensures Alone(k, max, r, sid, After(ConfigOf(k, sid), l, acts))
    decreases |acts|
  {
    hide Alone, Enabled, Apply, SettingsOk, BucketsOk, Deadlock.Calm, Payable, ConfigOf;
    r := s;
    if acts != [] {
      assert acts[0] in acts && forall a <- acts[1..] :: a in acts;
      r := LiftStep(k, max, s, sid, l, acts[0]);
      r := LiftRun(k, max, r, sid, Apply(ConfigOf(k, sid), l, acts[0]), acts[1..]);
    }
  }

  lemma OpenedAlone(k: Settings, max: seq<int>, e: End) returns (s: Pair, sid: uint32)
    requires SettingsOk(k) && BucketsOk(max)
    ensures Opener(sid) == e && Alone(k, max, s, sid, START)
  {
    assert PairRuns(k, Start(max), []) && PairAfter(k, Start(max), []) == Start(max);
    sid := e + 2;
    s := PairStep(k, max, Start(max), Sys(OpenStream(e)));
    assert s.g.wires == [[], []];
    assert Only([], sid) == [];
    hide PairReachable;
  }

  // ---------- A writer that nobody answers ----------

  /** Reached from the start by the writer's own steps: nothing at the other end has moved. */
  ghost predicate ByWriter(c: Config, l: Link) {
    exists acts :: RunsFrom(c, START, acts) && WriterSteps(acts) && After(c, START, acts) == l
  }

  lemma WriterGoesOn(c: Config, l: Link, a: Act) returns (m: Link)
    requires ByWriter(c, l) && WriterStep(a) && Enabled(c, l, a)
    ensures m == Apply(c, l, a) && ByWriter(c, m)
  {
    var acts :| RunsFrom(c, START, acts) && WriterSteps(acts) && After(c, START, acts) == l;
    hide Apply, Enabled, WriterStep;
    RunSnoc(c, START, acts, a);
    m := Apply(c, l, a);
  }

  lemma {:induction false} WriterStepsAreCalm(c: Config, l: Link, acts: seq<Act>)
    requires RunsFrom(c, l, acts) && WriterSteps(acts)
    ensures Deadlock.CalmRun(c, l, acts)
    decreases |acts|
  {
    hide Apply, Enabled;
    if acts != [] {
      assert acts[0] in acts && forall a <- acts[1..] :: a in acts;
      WriterStepsAreCalm(c, Apply(c, l, acts[0]), acts[1..]);
    }
  }

  /** All that the window allows is cut and sent. */
  lemma {:induction false} SendsAllowed(c: Config, l: Link) returns (m: Link)
    requires c.frameSize > 0 && ByWriter(c, l) && l.writer.Cutting?
    ensures ByWriter(c, m) && m.writer == Cutting([], l.writer.more)
    ensures m == l.(writer := m.writer, wire := m.wire, numWritten := m.numWritten)
    decreases if l.writer.Cutting? then |l.writer.bts| else 0
  {
    hide ByWriter, U32;
    m := l;
    if l.writer.bts != [] {
      m := WriterGoesOn(c, m, Cut);
      m := WriterGoesOn(c, m, SendForward);
      m := WriterGoesOn(c, m, Count);
      m := SendsAllowed(c, m);
    }
  }

  /** A write of one byte more than the first window, on a new stream, is measured. */
  lemma MeasuresMuch(c: Config) returns (l: Link)
    requires ConfigOk(c) && c.version == 2
    ensures ByWriter(c, l) && l.writer.Measured? && |l.writer.b| == INITIAL_PEER_WINDOW + 1 && l.writer.inflight == 0
    ensures l == START.(writer := l.writer, wire := l.wire, recorded := true, written := l.written)
  {
    hide Inv, U32, I32;
    l := START;
    assert RunsFrom(c, START, []) && WriterSteps([]) && After(c, START, []) == START;
    hide ByWriter;
    l := WriterGoesOn(c, l, SendForward);
    l := WriterGoesOn(c, l, Record);
    var b: seq<byte> := seq(INITIAL_PEER_WINDOW + 1, _ => 0);
    l := WriterGoesOn(c, l, CallWrite(b));
    l := WriterGoesOn(c, l, Measure);
    assert I32(0) == 0 by { SmallI32(0); }
  }

  /** The window is sent and one byte waits for an update. */
  lemma FillsWindow(c: Config) returns (l: Link)
    requires ConfigOk(c) && c.version == 2
    ensures ByWriter(c, l) && l.writer.Blocked?
    ensures l == START.(writer := l.writer, wire := l.wire, recorded := true, written := l.written,
                        numWritten := l.numWritten)
  {
    hide ByWriter, U32, I32;
    l := MeasuresMuch(c);
    var m := l.writer;
    OpenWindowSplits(c, m.b, m.inflight, l.peerWindow);
    hide AfterOpenWindow;
    l := WriterGoesOn(c, l, OpenWindow);
    assert l.writer.more != [];
    l := SendsAllowed(c, l);
    l := WriterGoesOn(c, l, Cut);
  }

  // ---------- The exact condition ----------

  /** Room in the windows of the streams that e opens, and a token in both buckets. */
  predicate Fit(k: Settings, max: seq<int>, e: End)
    requires SettingsOk(k)
  {
    Supplied(max) && Roomy(ConfigOf(k, e))
  }

  /** Every writer that waits for an update, of every stream that e opened, in every run, can send. */
  ghost predicate WritersNeverStuck(k: Settings, max: seq<int>, e: End)
    requires SettingsOk(k) && BucketsOk(max)
  {
    forall s: Pair, sid: uint32 ::
      (PairReachable(k, max, s) && PairShape(s) && sid in s.g.ends && Opener(sid) == e
       && s.g.ends[sid].writer.Blocked?) ==> CanSend(k, s, sid)
  }

  lemma StarvesWithoutTokens(k: Settings, max: seq<int>, e: End) returns (s: Pair, sid: uint32)
    requires SettingsOk(k) && k.version == 2 && BucketsOk(max) && !Supplied(max)
    ensures PairReachable(k, max, s) && PairShape(s) && sid in s.g.ends && Opener(sid) == e
    ensures s.g.ends[sid].writer.Blocked? && NeverSends(k, s, sid)
  {
    s, sid := OpenedAlone(k, max, e);
    var c := ConfigOf(k, sid);
    var l := FillsWindow(c);
    var acts :| RunsFrom(c, START, acts) && WriterSteps(acts) && After(c, START, acts) == l;
    WriterStepsAreCalm(c, START, acts);
    assert forall a <- acts :: Payable(max, a);
    hide Enabled, Apply, RunsFrom, After;
    s := LiftRun(k, max, s, sid, START, acts);
    var d: End := if max[0] <= 0 then 0 else 1;
    PairReachableInv(k, max, s);
    assert View(s.g, sid) == l && Shut(l, sid, d);
    forall acts | PairRuns(k, s, acts)
      ensures sid in PairAfter(k, s, acts).g.ends && Sent(PairAfter(k, s, acts).g.ends[sid]) == Sent(s.g.ends[sid])
    {
      ShutInRuns(k, max, s, acts, sid, d);
    }
  }

  lemma StarvesWithoutRoom(k: Settings, max: seq<int>, e: End) returns (s: Pair, sid: uint32)
    requires SettingsOk(k) && k.version == 2 && BucketsOk(max) && Supplied(max) && !Roomy(ConfigOf(k, e))
    ensures PairReachable(k, max, s) && PairShape(s) && sid in s.g.ends && Opener(sid) == e
    ensures s.g.ends[sid].writer.Blocked? && NeverSends(k, s, sid)
  {
    s, sid := OpenedAlone(k, max, e);
    var c := ConfigOf(k, sid);
    assert c == ConfigOf(k, e);
    var l := Deadlock.WithoutRoomTheWriterStarves(c);
    var acts :| RunsFrom(c, START, acts) && Deadlock.CalmRun(c, START, acts) && After(c, START, acts) == l;
    assert forall a <- acts :: Payable(max, a);
    s := LiftRun(k, max, s, sid, START, acts);
    PairReachableInv(k, max, s);
    forall acts | PairRuns(k, s, acts)
      ensures sid in PairAfter(k, s, acts).g.ends && Sent(PairAfter(k, s, acts).g.ends[sid]) == Sent(s.g.ends[sid])
    {
      StuckInRuns(k, max, s, acts, sid);
    }
  }

  /** In the whole system, over shared wires and under both gates: the writers of the streams that e opens are never
      stuck if and only if both buckets start with a token and their windows have room. Otherwise some run leaves a
      writer waiting that no step whatever makes send. */
  lemma NeverStuckIff(k: Settings, max: seq<int>, e: End)
    requires SettingsOk(k) && k.version == 2 && BucketsOk(max)
    ensures Fit(k, max, e) <==> WritersNeverStuck(k, max, e)
  {
    if Fit(k, max, e) {
      forall s: Pair, sid: uint32 | PairReachable(k, max, s) && PairShape(s) && sid in s.g.ends && Opener(sid) == e
        && s.g.ends[sid].writer.Blocked?
        ensures CanSend(k, s, sid)
      {
        assert ConfigOf(k, sid) == ConfigOf(k, e);
        RoomSuffices(k, max, s, sid);
      }
    } else {
      var s, sid;
      if !Supplied(max) {
        s, sid := StarvesWithoutTokens(k, max, e);
      } else {
        s, sid := StarvesWithoutRoom(k, max, e);
      }
      assert !CanSend(k, s, sid);
    }
  }
}
