/** The receiving side of one session, against any peer that does not reuse the id of a closed stream: recvLoop under
    the token bucket, the readers that give tokens back, and streams that close. A step is one atomic operation, one
    channel operation or one section under bufferLock; streamLock is held over several steps. */
module Receive {
  import opened Arith

  const MAX_PAYLOAD := 65535

  /** One stream at this end: the lengths of its buffers, whether it is in the session's map, the one-slot
      chReadEvent, the FIN flag, and whether its reader is in waitRead. */
  datatype Stream = Stream(lens: seq<nat>, registered: bool, readEvent: bool, fin: bool, waiting: bool)

  /** Where recvLoop is. Holding, Pushed and Charged are about a payload of n bytes for stream sid. */
  datatype Receiver =
    | Gate | Parked | Reading
    | Holding(sid: nat, n: nat) | Pushed(sid: nat, n: nat) | Charged(sid: nat)

  /** Where a reading or closing goroutine is: it may have taken n bytes and not yet returned their tokens, or have
      found the bucket positive and be about to notify. The last four hold streamLock, in streamClosed. */
  datatype Thread =
    | Free | Owes(n: nat) | Notifying
    | Recycling(sid: nat) | OwesLocked(sid: nat, n: nat) | NotifyingLocked(sid: nat) | Deleting(sid: nat)

  /** Who holds streamLock. */
  datatype Holder = NoOne | TheReceiver | Closer(t: nat)

  datatype Side = Side(bucket: int, notify: bool, streams: map<nat, Stream>, lock: Holder, receiver: Receiver,
                       threads: map<nat, Thread>)

  /** The bucket starts with the size that newSession casts to int32, which need not be positive. */
  function Start(bucket: int): Side {
    Side(bucket, false, map[], NoOne, Gate, map[])
  }

  datatype Act =
    | CheckBucket
    | WakeReceiver
    | OtherFrame                           // a frame that brings no payload into any buffer
    | SynFrame(sid: nat)
    | FinFrame(sid: nat)
    | PshFrame(sid: nat, n: nat)
    | PushBytes
    | Charge
    | NotifyReader
    | Register(sid: nat)                   // OpenStream
    | Take(t: nat, sid: nat, max: nat)     // tryRead or WriteTo under bufferLock
    | WakeByEvent(sid: nat)
    | WakeByFin(sid: nat)
    | Return(t: nat)                       // returnTokens, the addition
    | Notify(t: nat)                       // returnTokens, notifyBucket
    | Close(t: nat, sid: nat)              // streamClosed takes streamLock
    | Recycle(t: nat)
    | ReturnLocked(t: nat)
    | NotifyLocked(t: nat)
    | Delete(t: nat)
    | Ping                                 // keepalive forces a signal
    | Poke(sid: nat)                       // SetReadDeadline forces a read event

  function At(s: Side, t: nat): Thread {
    if t in s.threads then s.threads[t] else Free
  }

  predicate Locked(t: Thread) {
    t.Recycling? || t.OwesLocked? || t.NotifyingLocked? || t.Deleting?
  }

  function Sum(lens: seq<nat>): nat {
    if lens == [] then 0 else lens[0] + Sum(lens[1..])
  }

  function TakeCount(lens: seq<nat>, max: nat): nat {
    if lens == [] then 0 else Min(max, lens[0])
  }

  function AfterTake(lens: seq<nat>, n: nat): seq<nat>
    requires lens != [] && n <= lens[0]
  {
    if n == lens[0] then lens[1..] else lens[0 := lens[0] - n]
  }

  predicate Enabled(s: Side, a: Act) {
    match a
    case CheckBucket => s.receiver.Gate?
    case WakeReceiver => s.receiver.Parked? && s.notify
    case OtherFrame => s.receiver.Reading?
    case SynFrame(sid) => s.receiver.Reading? && s.lock.NoOne? && sid !in s.streams
    case FinFrame(sid) => s.receiver.Reading? && s.lock.NoOne? && sid in s.streams
    case PshFrame(sid, n) => s.receiver.Reading? && 0 < n <= MAX_PAYLOAD
    case PushBytes => s.receiver.Holding? && s.lock.NoOne?
    case Charge => s.receiver.Pushed?
    case NotifyReader => s.receiver.Charged? && s.receiver.sid in s.streams
    case Register(sid) => s.lock.NoOne? && sid !in s.streams
    case Take(t, sid, max) => At(s, t).Free? && sid in s.streams && !s.streams[sid].waiting && max > 0
    case WakeByEvent(sid) => sid in s.streams && s.streams[sid].waiting && s.streams[sid].readEvent
    case WakeByFin(sid) => sid in s.streams && s.streams[sid].waiting && s.streams[sid].fin
    case Return(t) => At(s, t).Owes?
    case Notify(t) => At(s, t).Notifying?
    case Close(t, sid) => At(s, t).Free? && s.lock.NoOne? && sid in s.streams && s.streams[sid].registered
    case Recycle(t) => At(s, t).Recycling? && At(s, t).sid in s.streams
    case ReturnLocked(t) => At(s, t).OwesLocked?
    case NotifyLocked(t) => At(s, t).NotifyingLocked?
    case Delete(t) => At(s, t).Deleting? && At(s, t).sid in s.streams
    case Ping => true
    case Poke(sid) => sid in s.streams
  }

  function SetThread(s: Side, t: nat, p: Thread): Side {
    s.(threads := s.threads[t := p])
  }

  function SetStream(s: Side, sid: nat, st: Stream): Side {
    s.(streams := s.streams[sid := st])
  }

  const NEW_STREAM := Stream([], true, false, false, false)

  predicate ByReceiver(a: Act) {
    a.CheckBucket? || a.WakeReceiver? || a.OtherFrame? || a.SynFrame? || a.FinFrame? || a.PshFrame? || a.PushBytes?
    || a.Charge? || a.NotifyReader?
  }

  predicate ByCloser(a: Act) {
    a.Close? || a.Recycle? || a.ReturnLocked? || a.NotifyLocked? || a.Delete?
  }

  function ApplyReceiver(s: Side, a: Act): (r: Side)
    requires Enabled(s, a) && ByReceiver(a)
    ensures r.threads == s.threads
  {
    match a
    case CheckBucket => s.(receiver := if s.bucket <= 0 then Parked else Reading)
    case WakeReceiver => s.(notify := false, receiver := Gate)
    case OtherFrame => s.(receiver := Gate)
    case SynFrame(sid) => SetStream(s.(receiver := Gate), sid, NEW_STREAM)
    case FinFrame(sid) =>
      var st := s.streams[sid];
      SetStream(s.(receiver := Gate), sid, if st.registered then st.(fin := true, readEvent := true) else st)
    case PshFrame(sid, n) => s.(receiver := Holding(sid, n))
    case PushBytes =>
      var sid, n := s.receiver.sid, s.receiver.n;
      if sid in s.streams && s.streams[sid].registered then
        var st := s.streams[sid];
        SetStream(s.(receiver := Pushed(sid, n), lock := TheReceiver), sid, st.(lens := st.lens + [n]))
      else s.(receiver := Gate)
    case Charge => s.(bucket := s.bucket - s.receiver.n, receiver := Charged(s.receiver.sid))
    case NotifyReader =>
      var sid := s.receiver.sid;
      SetStream(s.(receiver := Gate, lock := NoOne), sid, s.streams[sid].(readEvent := true))
  }

  function ApplyCloser(s: Side, a: Act): (r: Side)
    requires Enabled(s, a) && ByCloser(a)
    ensures r.receiver == s.receiver
  {
    match a
    case Close(t, sid) => SetThread(s.(lock := Closer(t)), t, Recycling(sid))
    case Recycle(t) =>
      var sid := At(s, t).sid;
      var n := Sum(s.streams[sid].lens);
      SetStream(SetThread(s, t, if n > 0 then OwesLocked(sid, n) else Deleting(sid)), sid, s.streams[sid].(lens := []))
    case ReturnLocked(t) =>
      var bucket, sid := s.bucket + At(s, t).n, At(s, t).sid;
      SetThread(s.(bucket := bucket), t, if bucket > 0 then NotifyingLocked(sid) else Deleting(sid))
    case NotifyLocked(t) => SetThread(s.(notify := true), t, Deleting(At(s, t).sid))
    case Delete(t) =>
      var sid := At(s, t).sid;
      SetStream(SetThread(s.(lock := NoOne), t, Free), sid, s.streams[sid].(registered := false))
  }

  function ApplyOther(s: Side, a: Act): (r: Side)
    requires Enabled(s, a) && !ByReceiver(a) && !ByCloser(a)
    ensures r.receiver == s.receiver && r.lock == s.lock
  {
    match a
    case Register(sid) => SetStream(s, sid, NEW_STREAM)
    case Take(t, sid, max) =>
      var st := s.streams[sid];
      if st.lens == [] then SetStream(s, sid, st.(waiting := true))
      else
        var n := TakeCount(st.lens, max);
        SetStream(SetThread(s, t, Owes(n)), sid, st.(lens := AfterTake(st.lens, n)))
    case WakeByEvent(sid) => SetStream(s, sid, s.streams[sid].(waiting := false, readEvent := false))
    case WakeByFin(sid) => SetStream(s, sid, s.streams[sid].(waiting := false))
    case Return(t) =>
      var bucket := s.bucket + At(s, t).n;
      SetThread(s.(bucket := bucket), t, if bucket > 0 then Notifying else Free)
    case Notify(t) => SetThread(s.(notify := true), t, Free)
    case Ping => s.(notify := true)
    case Poke(sid) => SetStream(s, sid, s.streams[sid].(readEvent := true))
  }

  /** A step of recvLoop, of a goroutine in streamClosed, or of a reader, keepalive or SetReadDeadline. */
  function Apply(s: Side, a: Act): Side
    requires Enabled(s, a)
  {
    if ByReceiver(a) then ApplyReceiver(s, a)
    else if ByCloser(a) then ApplyCloser(s, a)
    else ApplyOther(s, a)
  }

  // ---------- Totals over maps ----------

  ghost function Pick(m: map<nat, nat>): (k: nat)
    requires |m| > 0
    ensures k in m
  {
    var k :| k in m;
    k
  }

  ghost function Total(m: map<nat, nat>): nat
    decreases |m|
  {
    if |m| == 0 then 0 else m[Pick(m)] + Total(m - {Pick(m)})
  }

  lemma {:induction false} TotalWithout(m: map<nat, nat>, k: nat)
    requires k in m
    ensures Total(m) == m[k] + Total(m - {k})
    decreases |m|
  {
    var j := Pick(m);
    if j != k {
      TotalWithout(m - {j}, k);
      TotalWithout(m - {k}, j);
      assert m - {j} - {k} == m - {k} - {j};
    }
  }

  lemma TotalUpdate(m: map<nat, nat>, k: nat, v: nat)
    ensures Total(m[k := v]) == Total(m) - (if k in m then m[k] else 0) + v
  {
    TotalWithout(m[k := v], k);
    assert m[k := v] - {k} == m - {k};
    if k in m {
      TotalWithout(m, k);
    } else {
      assert m - {k} == m;
    }
  }

  // ---------- Tokens ----------

  function Debt(t: Thread): nat {
    if t.Owes? || t.OwesLocked? then t.n else 0
  }

  function Sizes(streams: map<nat, Stream>): map<nat, nat> {
    map sid | sid in streams :: Sum(streams[sid].lens)
  }

  function Debts(threads: map<nat, Thread>): map<nat, nat> {
    map t | t in threads :: Debt(threads[t])
  }

  /** Bytes in the buffers of all streams. */
  ghost function Buffered(s: Side): nat {
    Total(Sizes(s.streams))
  }

  /** Tokens taken out of buffers and not yet returned. */
  ghost function Owed(s: Side): nat {
    Total(Debts(s.threads))
  }

  function Uncharged(r: Receiver): nat {
    if r.Pushed? then r.n else 0
  }

  ghost predicate TokensConserved(max: int, s: Side) {
    s.bucket + Buffered(s) + Owed(s) == max + Uncharged(s.receiver)
  }

  ghost predicate GateHeld(max: int, s: Side) {
    && (s.receiver.Reading? || s.receiver.Holding? || s.receiver.Pushed? ==> s.bucket > 0)
    && (s.receiver.Holding? || s.receiver.Pushed? ==> 0 < s.receiver.n <= MAX_PAYLOAD)
    && s.bucket >= Min(max, 1 - MAX_PAYLOAD)
  }

  // What a goroutine that holds streamLock in streamClosed may rely on.
  predicate CloserOk(s: Side, t: nat, p: Thread) {
    Locked(p) ==>
      && s.lock == Closer(t) && p.sid in s.streams && s.streams[p.sid].registered
      && (!p.Recycling? ==> s.streams[p.sid].lens == [])
  }

  /** streamLock has one holder; what its holder works on is in the map; only registered streams hold bytes. */
  ghost predicate LockOk(s: Side) {
    && (forall t <- s.threads :: CloserOk(s, t, s.threads[t]))
    && (s.lock.Closer? ==> Locked(At(s, s.lock.t)))
    && (s.lock.TheReceiver? <==> s.receiver.Pushed? || s.receiver.Charged?)
    && (s.lock.TheReceiver? ==> s.receiver.sid in s.streams)
    && (forall sid <- s.streams :: !s.streams[sid].registered ==> s.streams[sid].lens == [])
  }

  predicate SomeoneNotifies(s: Side) {
    exists t <- s.threads :: s.threads[t].Notifying? || s.threads[t].NotifyingLocked?
  }

  /** A parked recvLoop that could go on has a signal, or one is on its way. */
  ghost predicate BucketSignalled(s: Side) {
    s.receiver.Parked? && s.bucket > 0 ==> s.notify || SomeoneNotifies(s)
  }

  predicate ReaderToBeTold(s: Side, sid: nat) {
    (s.receiver.Pushed? || s.receiver.Charged?) && s.receiver.sid == sid
  }

  /** A waiting reader with data has an event, or recvLoop is about to send one. */
  ghost predicate ReadersSignalled(s: Side) {
    forall sid <- s.streams :: s.streams[sid].waiting && s.streams[sid].lens != [] ==>
      s.streams[sid].readEvent || ReaderToBeTold(s, sid)
  }

  ghost predicate Inv(max: int, s: Side) {
    TokensConserved(max, s) && GateHeld(max, s) && LockOk(s) && BucketSignalled(s) && ReadersSignalled(s)
  }

  // ---------- Each step keeps the invariant ----------

  lemma SizesUpdate(streams: map<nat, Stream>, sid: nat, st: Stream)
    ensures Total(Sizes(streams[sid := st]))
      == Total(Sizes(streams)) - (if sid in streams then Sum(streams[sid].lens) else 0) + Sum(st.lens)
  {
    hide Sum, Total;
    assert Sizes(streams[sid := st]) == Sizes(streams)[sid := Sum(st.lens)];
    TotalUpdate(Sizes(streams), sid, Sum(st.lens));
  }

  lemma DebtsUpdate(threads: map<nat, Thread>, t: nat, p: Thread)
    ensures Total(Debts(threads[t := p]))
      == Total(Debts(threads)) - (if t in threads then Debt(threads[t]) else 0) + Debt(p)
  {
    hide Total;
    assert Debts(threads[t := p]) == Debts(threads)[t := Debt(p)];
    TotalUpdate(Debts(threads), t, Debt(p));
  }

  lemma {:induction false} SumSnoc(lens: seq<nat>, n: nat)
    ensures Sum(lens + [n]) == Sum(lens) + n
  {
    if lens == [] {
      assert lens + [n] == [n] && [n][1..] == [];
    } else {
      SumSnoc(lens[1..], n);
      assert (lens + [n])[1..] == lens[1..] + [n];
    }
  }

  lemma SumTake(lens: seq<nat>, n: nat)
    requires lens != [] && n <= lens[0]
    ensures Sum(AfterTake(lens, n)) == Sum(lens) - n
  {
    if n < lens[0] {
      assert AfterTake(lens, n)[1..] == lens[1..];
    }
  }

  lemma ReceiverKeepsTokens(max: int, s: Side, a: Act)
    requires TokensConserved(max, s) && Enabled(s, a) && ByReceiver(a)
    ensures TokensConserved(max, Apply(s, a))
  {
    hide Total, Sizes, Debts;
    match a
    case SynFrame(sid) => SizesUpdate(s.streams, sid, NEW_STREAM);
    case FinFrame(sid) => SizesUpdate(s.streams, sid, Apply(s, a).streams[sid]);
    case PushBytes =>
      if s.receiver.sid in s.streams {
        SizesUpdate(s.streams, s.receiver.sid, Apply(s, a).streams[s.receiver.sid]);
        SumSnoc(s.streams[s.receiver.sid].lens, s.receiver.n);
      }
    case NotifyReader => SizesUpdate(s.streams, s.receiver.sid, Apply(s, a).streams[s.receiver.sid]);
    case _ =>
  }

  lemma CloserKeepsTokens(max: int, s: Side, a: Act)
    requires TokensConserved(max, s) && Enabled(s, a) && ByCloser(a)
    ensures TokensConserved(max, Apply(s, a))
  {
    hide Total, Sizes, Debts;
    match a
    case Close(t, sid) => DebtsUpdate(s.threads, t, Recycling(sid));
    case Recycle(t) =>
      DebtsUpdate(s.threads, t, Apply(s, a).threads[t]);
      SizesUpdate(s.streams, At(s, t).sid, Apply(s, a).streams[At(s, t).sid]);
    case ReturnLocked(t) => DebtsUpdate(s.threads, t, Apply(s, a).threads[t]);
    case NotifyLocked(t) => DebtsUpdate(s.threads, t, Deleting(At(s, t).sid));
    case Delete(t) =>
      DebtsUpdate(s.threads, t, Free);
      SizesUpdate(s.streams, At(s, t).sid, Apply(s, a).streams[At(s, t).sid]);
  }

  lemma ReaderKeepsTokens(max: int, s: Side, a: Act)
    requires TokensConserved(max, s) && Enabled(s, a) && !ByReceiver(a) && !ByCloser(a)
    ensures TokensConserved(max, Apply(s, a))
  {
    hide Total, Sizes, Debts;
    match a
    case Register(sid) => SizesUpdate(s.streams, sid, NEW_STREAM);
    case Take(t, sid, max) =>
      SizesUpdate(s.streams, sid, Apply(s, a).streams[sid]);
      if s.streams[sid].lens != [] {
        DebtsUpdate(s.threads, t, Owes(TakeCount(s.streams[sid].lens, max)));
        SumTake(s.streams[sid].lens, TakeCount(s.streams[sid].lens, max));
      }
    case WakeByEvent(sid) => SizesUpdate(s.streams, sid, Apply(s, a).streams[sid]);
    case WakeByFin(sid) => SizesUpdate(s.streams, sid, Apply(s, a).streams[sid]);
    case Poke(sid) => SizesUpdate(s.streams, sid, Apply(s, a).streams[sid]);
    case Return(t) => DebtsUpdate(s.threads, t, Apply(s, a).threads[t]);
    case Notify(t) => DebtsUpdate(s.threads, t, Free);
    case Ping =>
  }

  lemma TokensKept(max: int, s: Side, a: Act)
    requires TokensConserved(max, s) && Enabled(s, a)
    ensures TokensConserved(max, Apply(s, a))
  {
    hide TokensConserved, Enabled, Apply;
    if ByReceiver(a) {
      ReceiverKeepsTokens(max, s, a);
    } else if ByCloser(a) {
      CloserKeepsTokens(max, s, a);
    } else {
      ReaderKeepsTokens(max, s, a);
    }
  }

  lemma GateKept(max: int, s: Side, a: Act)
    requires GateHeld(max, s) && Enabled(s, a)
    ensures GateHeld(max, Apply(s, a))
  {}

  lemma ReceiverKeepsLock(s: Side, a: Act)
    requires LockOk(s) && Enabled(s, a) && ByReceiver(a)
    ensures LockOk(ApplyReceiver(s, a))
  {
    var r := ApplyReceiver(s, a);
    forall t | t in r.threads
      ensures CloserOk(r, t, r.threads[t])
    {
      assert CloserOk(s, t, s.threads[t]);
    }
  }

  lemma CloserKeepsLock(s: Side, a: Act)
    requires LockOk(s) && Enabled(s, a) && ByCloser(a)
    ensures LockOk(ApplyCloser(s, a))
  {
    var r := ApplyCloser(s, a);
    assert a.t in s.threads ==> CloserOk(s, a.t, s.threads[a.t]);
    forall t | t in r.threads
      ensures CloserOk(r, t, r.threads[t])
    {
      assert t in s.threads ==> CloserOk(s, t, s.threads[t]);
    }
  }

  lemma OtherKeepsLock(s: Side, a: Act)
    requires LockOk(s) && Enabled(s, a) && !ByReceiver(a) && !ByCloser(a)
    ensures LockOk(ApplyOther(s, a))
  {
    var r := ApplyOther(s, a);
    forall t | t in r.threads
      ensures CloserOk(r, t, r.threads[t])
    {
      assert t in s.threads ==> CloserOk(s, t, s.threads[t]);
    }
  }

  lemma LockKept(s: Side, a: Act)
    requires LockOk(s) && Enabled(s, a)
    ensures LockOk(Apply(s, a))
  {
    hide LockOk, Enabled, ByReceiver, ByCloser, ApplyReceiver, ApplyCloser, ApplyOther;
    if ByReceiver(a) {
      ReceiverKeepsLock(s, a);
    } else if ByCloser(a) {
      CloserKeepsLock(s, a);
    } else {
      OtherKeepsLock(s, a);
    }
  }

  lemma BucketSignalKept(s: Side, a: Act)
    requires BucketSignalled(s) && Enabled(s, a)
    ensures BucketSignalled(Apply(s, a))
  {
    var r := Apply(s, a);
    if SomeoneNotifies(s) {
      var u :| u in s.threads && (s.threads[u].Notifying? || s.threads[u].NotifyingLocked?);
      assert u in r.threads && (r.threads[u] == s.threads[u] || r.notify);
    }
    if a.Return? || a.ReturnLocked? {
      assert a.t in r.threads && (r.bucket > 0 ==> r.threads[a.t].Notifying? || r.threads[a.t].NotifyingLocked?);
    }
  }

  lemma ReceiverKeepsReaders(s: Side, a: Act)
    requires ReadersSignalled(s) && LockOk(s) && Enabled(s, a) && ByReceiver(a)
    ensures ReadersSignalled(Apply(s, a))
  {}

  lemma OthersKeepReaders(s: Side, a: Act)
    requires ReadersSignalled(s) && LockOk(s) && Enabled(s, a) && !ByReceiver(a)
    ensures ReadersSignalled(Apply(s, a))
  {}

  lemma ReadersKept(s: Side, a: Act)
    requires ReadersSignalled(s) && LockOk(s) && Enabled(s, a)
    ensures ReadersSignalled(Apply(s, a))
  {
    hide ReadersSignalled, LockOk, Enabled, Apply, ByReceiver;
    if ByReceiver(a) {
      ReceiverKeepsReaders(s, a);
    } else {
      OthersKeepReaders(s, a);
    }
  }

  lemma InvKept(max: int, s: Side, a: Act)
    requires Inv(max, s) && Enabled(s, a)
    ensures Inv(max, Apply(s, a))
  {
    hide TokensConserved, GateHeld, LockOk, BucketSignalled, ReadersSignalled, Apply;
    TokensKept(max, s, a);
    GateKept(max, s, a);
    LockKept(s, a);
    BucketSignalKept(s, a);
    ReadersKept(s, a);
  }

  // ---------- What holds in every run ----------

  ghost predicate RunsFrom(s: Side, acts: seq<Act>)
    decreases |acts|
  {
    acts == [] || (Enabled(s, acts[0]) && RunsFrom(Apply(s, acts[0]), acts[1..]))
  }

  ghost function After(s: Side, acts: seq<Act>): Side
    requires RunsFrom(s, acts)
    decreases |acts|
  {
    if acts == [] then s else After(Apply(s, acts[0]), acts[1..])
  }

  ghost predicate Reachable(max: int, s: Side) {
    exists acts :: RunsFrom(Start(max), acts) && After(Start(max), acts) == s
  }

  lemma {:induction false} RunKeepsInv(max: int, s: Side, acts: seq<Act>)
    requires Inv(max, s) && RunsFrom(s, acts)
    ensures Inv(max, After(s, acts))
    decreases |acts|
  {
    hide Inv, Apply, Enabled;
    if acts != [] {
      InvKept(max, s, acts[0]);
      RunKeepsInv(max, Apply(s, acts[0]), acts[1..]);
    }
  }

  lemma ReachableInv(max: int, s: Side)
    requires Reachable(max, s)
    ensures Inv(max, s)
  {
    var acts :| RunsFrom(Start(max), acts) && After(Start(max), acts) == s;
    assert Sizes(map[]) == map[] && Debts(map[]) == map[];
    RunKeepsInv(max, Start(max), acts);
  }

  /** Token conservation, through reads, WriteTo, closing with unread data, and frames for unknown streams; and
      only registered streams hold bytes. */
  lemma TokenConservation(max: int, s: Side)
    requires Reachable(max, s)
    ensures s.bucket + Buffered(s) + Owed(s) == max + Uncharged(s.receiver)
    ensures forall sid <- s.streams :: s.streams[sid].lens != [] ==> s.streams[sid].registered
  {
    ReachableInv(max, s);
  }

  /** Bytes that recvLoop has read and not yet pushed. */
  function InHand(r: Receiver): nat {
    if r.Holding? then r.n else 0
  }

  /** The memory bound: bytes buffered, bytes in transit and the payload that recvLoop has just read never exceed the
      configured buffer and one payload. */
  lemma ReceiveBound(max: int, s: Side)
    requires Reachable(max, s)
    ensures Buffered(s) + Owed(s) + InHand(s.receiver) <= Max(0, max + MAX_PAYLOAD - 1)
    ensures Min(max, 1 - MAX_PAYLOAD) <= s.bucket <= max + MAX_PAYLOAD
  {
    hide Reachable, Total, LockOk, ReadersSignalled, BucketSignalled;
    ReachableInv(max, s);
  }

  /** No lost wake-up of recvLoop. */
  lemma NoLostBucketSignal(max: int, s: Side)
    requires Reachable(max, s) && s.receiver.Parked? && s.bucket > 0
    ensures s.notify || SomeoneNotifies(s)
  {
    ReachableInv(max, s);
  }

  /** No lost wake-up of a stream's reader. */
  lemma NoLostReadEvent(max: int, s: Side, sid: nat)
    requires Reachable(max, s) && sid in s.streams && s.streams[sid].waiting && s.streams[sid].lens != []
    ensures s.streams[sid].readEvent || ReaderToBeTold(s, sid)
  {
    ReachableInv(max, s);
  }

  /** Once every byte is read or recycled and every token returned, recvLoop cannot stay parked. */
  lemma DrainedMeansReceiving(max: int, s: Side)
    requires Reachable(max, s) && max > 0 && Buffered(s) == 0 && Owed(s) == 0 && s.receiver.Parked?
    ensures s.bucket == max && (s.notify || SomeoneNotifies(s))
  {
    ReachableInv(max, s);
  }

  lemma {:induction false} RunSnoc(s: Side, acts: seq<Act>, a: Act)
    requires RunsFrom(s, acts) && Enabled(After(s, acts), a)
    ensures RunsFrom(s, acts + [a]) && After(s, acts + [a]) == Apply(After(s, acts), a)
    decreases |acts|
  {
    hide Enabled, Apply;
    if acts != [] {
      RunSnoc(Apply(s, acts[0]), acts[1..], a);
      assert (acts + [a])[1..] == acts[1..] + [a];
    } else {
      assert acts + [a] == [a] && [a][1..] == [];
    }
  }

  lemma Step(max: int, s: Side, a: Act) returns (r: Side)
    requires Reachable(max, s) && Enabled(s, a)
    ensures r == Apply(s, a) && Reachable(max, r)
  {
    var acts :| RunsFrom(Start(max), acts) && After(Start(max), acts) == s;
    RunSnoc(Start(max), acts, a);
    r := Apply(s, a);
  }

  /** A payload that is read and returned between being pushed and being charged lifts the bucket above its limit
      by a whole payload. */
  lemma BucketPeak(max: int) returns (s: Side)
    requires max > 0
    ensures Reachable(max, s) && s.bucket == max + MAX_PAYLOAD
  {
    hide Reachable;
    s := Start(max);
    StartIsReachable(max);
    s := Step(max, s, CheckBucket);
    s := Step(max, s, SynFrame(2));
    s := Step(max, s, CheckBucket);
    s := Step(max, s, PshFrame(2, MAX_PAYLOAD));
    s := Step(max, s, PushBytes);
    s := Step(max, s, Take(0, 2, MAX_PAYLOAD));
    s := Step(max, s, Return(0));
  }

  lemma StartIsReachable(max: int)
    ensures Reachable(max, Start(max))
  {
    assert RunsFrom(Start(max), []) && After(Start(max), []) == Start(max);
  }

  /** No payload has been received, and no token has moved. */
  ghost predicate NeverOpened(max: int, s: Side) {
    && s.bucket == max && (s.receiver.Gate? || s.receiver.Parked?)
    && (forall sid <- s.streams :: s.streams[sid].lens == [])
    && (forall t <- s.threads :: !s.threads[t].Owes? && !s.threads[t].OwesLocked?)
  }

  lemma CloserOpensNothing(max: int, s: Side, a: Act)
    requires NeverOpened(max, s) && Enabled(s, a) && ByCloser(a)
    ensures NeverOpened(max, ApplyCloser(s, a))
  {}

  lemma OtherOpensNothing(max: int, s: Side, a: Act)
    requires NeverOpened(max, s) && Enabled(s, a) && !ByReceiver(a) && !ByCloser(a)
    ensures NeverOpened(max, ApplyOther(s, a))
  {}

  lemma NeverOpenedKept(max: int, s: Side, a: Act)
    requires max <= 0 && NeverOpened(max, s) && Enabled(s, a)
    ensures NeverOpened(max, Apply(s, a))
  {
    hide ByReceiver, ByCloser, ApplyCloser, ApplyOther;
    if ByReceiver(a) {
      assert a.CheckBucket? || a.WakeReceiver? by { ByWhom(s, a); }
    } else if ByCloser(a) {
      CloserOpensNothing(max, s, a);
    } else {
      OtherOpensNothing(max, s, a);
    }
  }

  lemma ByWhom(s: Side, a: Act)
    requires Enabled(s, a) && ByReceiver(a) && (s.receiver.Gate? || s.receiver.Parked?)
    ensures a.CheckBucket? || a.WakeReceiver?
  {}

  lemma {:induction false} NeverOpenedInRuns(max: int, s: Side, acts: seq<Act>)
    requires max <= 0 && NeverOpened(max, s) && RunsFrom(s, acts)
    ensures NeverOpened(max, After(s, acts))
    decreases |acts|
  {
    hide NeverOpened, Apply, Enabled;
    if acts != [] {
      NeverOpenedKept(max, s, acts[0]);
      NeverOpenedInRuns(max, Apply(s, acts[0]), acts[1..]);
    }
  }

  /** A bucket that does not start with a token never gets one: in no run is anything ever read. */
  lemma NothingIsReceived(max: int, s: Side)
    requires max <= 0 && Reachable(max, s)
    ensures s.bucket == max && (s.receiver.Gate? || s.receiver.Parked?)
  {
    var acts :| RunsFrom(Start(max), acts) && After(Start(max), acts) == s;
    NeverOpenedInRuns(max, Start(max), acts);
  }

  /** The 32-bit bucket of the source is the true count in every run exactly when its first value fits into an int32,
      and that value and one payload do. */
  lemma BucketFitsIff(max: int)
    ensures (forall s :: Reachable(max, s) ==> I32(s.bucket) == s.bucket)
      <==> -TWO_31 <= max && max + MAX_PAYLOAD < TWO_31
  {
    hide Reachable;
    StartIsReachable(max);
    if -TWO_31 <= max && max + MAX_PAYLOAD < TWO_31 {
      forall s | Reachable(max, s)
        ensures I32(s.bucket) == s.bucket
      {
        if max > 0 {
          ReceiveBound(max, s);
        } else {
          NothingIsReceived(max, s);
        }
      }
    } else if max > 0 {
      var s := BucketPeak(max);
    }
  }

  // ---------- What becomes of one stream ----------

  /** Bytes that a step brings into the buffers of stream sid: a payload for it, if it is in the map. */
  function Arriving(s: Side, a: Act, sid: nat): nat {
    if && a.PushBytes? && s.receiver.Holding? && s.receiver.sid == sid
       && sid in s.streams && s.streams[sid].registered then s.receiver.n
    else 0
  }

  /** Bytes that it takes out of them: what fits into a read of the first buffer, or all of them when the stream is
      recycled. */
  function Leaving(s: Side, a: Act, sid: nat): nat {
    if sid !in s.streams then 0
    else if a.Take? && a.sid == sid && s.streams[sid].lens != [] then Min(a.max, s.streams[sid].lens[0])
    else if a.Recycle? && At(s, a.t).Recycling? && At(s, a.t).sid == sid then Sum(s.streams[sid].lens)
    else 0
  }

  /** In every step, each stream gains the bytes that arrive for it and loses those that leave it, and no other. */
  lemma StreamBytes(s: Side, a: Act, sid: nat)
    requires Enabled(s, a) && sid in s.streams
    ensures var r := Apply(s, a);
      && sid in r.streams
      && Sum(r.streams[sid].lens) == Sum(s.streams[sid].lens) + Arriving(s, a, sid) - Leaving(s, a, sid)
  {
    hide Sum;
    if a.PushBytes? {
      SumSnoc(s.streams[sid].lens, s.receiver.n);
    } else if a.Take? && a.sid == sid && s.streams[sid].lens != [] {
      SumTake(s.streams[sid].lens, TakeCount(s.streams[sid].lens, a.max));
    } else if a.Recycle? {
      assert Sum([]) == 0 by { SumNone(); }
    }
  }

  lemma SumNone()
    ensures Sum([]) == 0
  {}

  /** A stream that the session did not know is in the map after its SYN or after OpenStream, with nothing in it. */
  lemma NewStreams(s: Side, a: Act, sid: nat)
    requires Enabled(s, a) && sid !in s.streams
    ensures sid in Apply(s, a).streams <==> (a.SynFrame? && a.sid == sid) || (a.Register? && a.sid == sid)
    ensures sid in Apply(s, a).streams ==>
      var st := Apply(s, a).streams[sid]; st.registered && st.lens == [] && !st.fin && !st.waiting
  {}

  lemma FinStays(s: Side, a: Act, sid: nat)
    requires Enabled(s, a) && sid in s.streams && s.streams[sid].fin
    ensures sid in Apply(s, a).streams && Apply(s, a).streams[sid].fin
  {}

  lemma {:induction false} FinStaysInRuns(s: Side, acts: seq<Act>, sid: nat)
    requires RunsFrom(s, acts) && sid in s.streams && s.streams[sid].fin
    ensures sid in After(s, acts).streams && After(s, acts).streams[sid].fin
    decreases |acts|
  {
    hide Enabled, Apply;
    if acts != [] {
      FinStays(s, acts[0], sid);
      FinStaysInRuns(Apply(s, acts[0]), acts[1..], sid);
    }
  }

  /** After the FIN of a stream in the map, whatever happens then, its reader never waits for ever: a step wakes it. */
  lemma FinIsRemembered(s: Side, sid: nat, acts: seq<Act>)
    requires Enabled(s, FinFrame(sid)) && s.streams[sid].registered && RunsFrom(Apply(s, FinFrame(sid)), acts)
    ensures var r := After(Apply(s, FinFrame(sid)), acts);
      && sid in r.streams && r.streams[sid].fin
      && (r.streams[sid].waiting ==>
            Enabled(r, WakeByFin(sid)) && !Apply(r, WakeByFin(sid)).streams[sid].waiting)
  {
    var m := Apply(s, FinFrame(sid));
    assert sid in m.streams && m.streams[sid].fin;
    hide Apply, Enabled, RunsFrom, After;
    FinStaysInRuns(m, acts, sid);
    if After(m, acts).streams[sid].waiting {
      WakesByFin(After(m, acts), sid);
    }
  }

  lemma WakesByFin(s: Side, sid: nat)
    requires sid in s.streams && s.streams[sid].fin && s.streams[sid].waiting
    ensures Enabled(s, WakeByFin(sid)) && !Apply(s, WakeByFin(sid)).streams[sid].waiting
  {}

  /** A reader that finds nothing waits, and takes nothing until it is woken; one that finds something does not wait. */
  lemma ReadWaitsIff(s: Side, t: nat, sid: nat, max: nat)
    requires Enabled(s, Take(t, sid, max))
    ensures var r := Apply(s, Take(t, sid, max));
      && (r.streams[sid].waiting <==> s.streams[sid].lens == [])
      && (r.streams[sid].waiting ==> forall u, n :: !Enabled(r, Take(u, sid, n)))
  {}

  /** A keepalive wakes a parked recvLoop; SetReadDeadline, a FIN and a payload's notification wake a waiting reader. */
  lemma ForcedWakeUps(s: Side, a: Act)
    requires Enabled(s, a)
    ensures a.Ping? && s.receiver.Parked? ==> Enabled(Apply(s, a), WakeReceiver)
    ensures a.Poke? && s.streams[a.sid].waiting ==> Enabled(Apply(s, a), WakeByEvent(a.sid))
    ensures a.FinFrame? && s.streams[a.sid].registered && s.streams[a.sid].waiting ==>
      Enabled(Apply(s, a), WakeByEvent(a.sid)) && Enabled(Apply(s, a), WakeByFin(a.sid))
    ensures a.NotifyReader? && s.streams[s.receiver.sid].waiting ==>
      Enabled(Apply(s, a), WakeByEvent(s.receiver.sid))
  {}

  lemma GoneStays(s: Side, a: Act, sid: nat)
    requires Enabled(s, a) && sid in s.streams && !s.streams[sid].registered
    ensures sid in Apply(s, a).streams && !Apply(s, a).streams[sid].registered
  {
    hide Sum;
    if ByReceiver(a) {
      hide ApplyCloser, ApplyOther;
    } else if ByCloser(a) {
      hide ApplyReceiver, ApplyOther;
    } else {
      hide ApplyReceiver, ApplyCloser;
    }
  }

  lemma {:induction false} GoneStaysInRuns(max: int, s: Side, acts: seq<Act>, sid: nat)
    requires Inv(max, s) && RunsFrom(s, acts) && sid in s.streams && !s.streams[sid].registered
    ensures Inv(max, After(s, acts)) && sid in After(s, acts).streams && !After(s, acts).streams[sid].registered
    decreases |acts|
  {
    hide Enabled, Apply, TokensConserved, GateHeld, LockOk, BucketSignalled, ReadersSignalled;
    if acts != [] {
      InvKept(max, s, acts[0]);
      GoneStays(s, acts[0], sid);
      GoneStaysInRuns(max, Apply(s, acts[0]), acts[1..], sid);
    }
  }

  /** A stream that was closed is out of the map and holds no byte, whatever frames arrive for it later. */
  lemma ClosedStaysEmpty(max: int, s: Side, t: nat, acts: seq<Act>)
    requires Reachable(max, s) && Enabled(s, Delete(t)) && RunsFrom(Apply(s, Delete(t)), acts)
    ensures var r, sid := After(Apply(s, Delete(t)), acts), At(s, t).sid;
      sid in r.streams && !r.streams[sid].registered && r.streams[sid].lens == []
  {
    DeleteDeregisters(s, t);
    hide Reachable, Enabled, Apply, TokensConserved, GateHeld, LockOk, BucketSignalled, ReadersSignalled, RunsFrom,
      After;
    ReachableInv(max, s);
    InvKept(max, s, Delete(t));
    var m := Apply(s, Delete(t));
    GoneStaysInRuns(max, m, acts, At(s, t).sid);
    GoneIsEmpty(max, After(m, acts), At(s, t).sid);
  }

  lemma DeleteDeregisters(s: Side, t: nat)
    requires Enabled(s, Delete(t))
    ensures var r := Apply(s, Delete(t)); At(s, t).sid in r.streams && !r.streams[At(s, t).sid].registered
  {}

  lemma GoneIsEmpty(max: int, s: Side, sid: nat)
    requires Inv(max, s) && sid in s.streams && !s.streams[sid].registered
    ensures s.streams[sid].lens == []
  {
    hide TokensConserved, GateHeld, BucketSignalled, ReadersSignalled;
  }
}
