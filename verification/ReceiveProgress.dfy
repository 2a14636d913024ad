/** recvLoop gets on: when it waits for tokens, or is busy with a payload, the session's own steps bring it back to
    reading, in whatever order they are taken, if and only if the bucket starts with a token. */
module ReceiveProgress {
  import opened Arith
  import opened Receive

  /** The steps that finish what is under way: no new frame comes in, no call begins that finds nothing to do. */
  predicate Settles(s: Side, a: Act) {
    match a
    case CheckBucket => true
    case WakeReceiver => true
    case PushBytes => true
    case Charge => true
    case NotifyReader => true
    case Take(_, sid, _) => sid in s.streams && s.streams[sid].lens != []
    case WakeByEvent(sid) => sid in s.streams && s.streams[sid].lens != []
    case Return(_) => true
    case Notify(_) => true
    case Recycle(_) => true
    case ReturnLocked(_) => true
    case NotifyLocked(_) => true
    case Delete(_) => true
    case _ => false
  }

  // ---------- A parked recvLoop is never left alone ----------

  lemma {:induction false} SomePart(m: map<nat, nat>) returns (k: nat)
    requires Total(m) > 0
    ensures k in m && m[k] > 0
    decreases |m|
  {
    k := Pick(m);
    if m[k] == 0 {
      k := SomePart(m - {k});
    }
  }

  /** A goroutine's tokens go back, or a stream's bytes are taken. */
  predicate GivesBack(s: Side, a: Act) {
    a.Return? || a.ReturnLocked?
    || ((a.Take? || a.WakeByEvent?) && a.sid in s.streams && s.streams[a.sid].lens != [])
  }

  lemma FreeThread(threads: map<nat, Thread>) returns (t: nat)
    ensures t !in threads
    decreases |threads|
  {
    if threads == map[] {
      t := 0;
    } else {
      var u :| u in threads;
      var v := Largest(threads.Keys, u);
      t := v + 1;
    }
  }

  lemma {:induction false} Largest(keys: set<nat>, u: nat) returns (v: nat)
    requires u in keys
    ensures v in keys && forall k <- keys :: k <= v
    decreases keys
  {
    if keys == {u} {
      v := u;
    } else {
      var w :| w in keys && w != u;
      v := Largest(keys - {u}, w);
      assert forall k <- keys :: k == u || k in keys - {u};
      v := Max(u, v);
    }
  }

  lemma BytesCanBeTaken(s: Side) returns (a: Act)
    requires s.receiver.Parked? && ReadersSignalled(s) && Buffered(s) > 0
    ensures Enabled(s, a) && GivesBack(s, a)
  {
    var sid := SomePart(Sizes(s.streams));
    assert s.streams[sid].lens != [];
    var t := FreeThread(s.threads);
    assert At(s, t).Free?;
    if s.streams[sid].waiting {
      a := WakeByEvent(sid);
    } else {
      a := Take(t, sid, 1);
    }
  }

  lemma TokensCanGoBack(s: Side) returns (a: Act)
    requires Owed(s) > 0
    ensures Enabled(s, a) && GivesBack(s, a)
  {
    var t := SomePart(Debts(s.threads));
    a := if s.threads[t].Owes? then Return(t) else ReturnLocked(t);
  }

  /** A parked recvLoop is woken, or about to be signalled, or somebody has tokens to give back or bytes to read. */
  lemma ParkedCanStep(max: int, s: Side) returns (a: Act)
    requires max > 0 && Reachable(max, s) && s.receiver.Parked?
    ensures Enabled(s, a) && (a.WakeReceiver? || a.Notify? || a.NotifyLocked? || GivesBack(s, a))
  {
    ReachableInv(max, s);
    hide Reachable, Buffered, Owed, LockOk, GateHeld;
    if s.bucket > 0 {
      if s.notify {
        a := WakeReceiver;
      } else {
        var t :| t in s.threads && (s.threads[t].Notifying? || s.threads[t].NotifyingLocked?);
        a := if s.threads[t].Notifying? then Notify(t) else NotifyLocked(t);
      }
    } else if Owed(s) > 0 {
      a := TokensCanGoBack(s);
    } else {
      a := BytesCanBeTaken(s);
    }
  }

  lemma CloserCanStep(s: Side, t: nat) returns (a: Act)
    requires LockOk(s) && s.lock == Closer(t)
    ensures Enabled(s, a) && (a.Recycle? || a.ReturnLocked? || a.NotifyLocked? || a.Delete?)
  {
    assert CloserOk(s, t, s.threads[t]);
    match s.threads[t]
    case Recycling(_) => a := Recycle(t);
    case OwesLocked(_, _) => a := ReturnLocked(t);
    case NotifyingLocked(_) => a := NotifyLocked(t);
    case _ => a := Delete(t);
  }

  /** recvLoop waits for streamLock only while its holder can go on. */
  lemma HolderCanStep(max: int, s: Side) returns (a: Act)
    requires Reachable(max, s) && s.receiver.Holding?
    ensures Enabled(s, a) && (a.PushBytes? || a.Recycle? || a.ReturnLocked? || a.NotifyLocked? || a.Delete?)
  {
    ReachableInv(max, s);
    hide Reachable, TokensConserved, GateHeld, BucketSignalled, ReadersSignalled, CloserOk, Locked;
    if s.lock.NoOne? {
      a := PushBytes;
    } else {
      a := CloserCanStep(s, s.lock.t);
    }
  }

  /** Unless recvLoop is reading, something that is under way can be finished. */
  lemma CanSettle(max: int, s: Side) returns (a: Act)
    requires max > 0 && Reachable(max, s) && !s.receiver.Reading?
    ensures Enabled(s, a) && Settles(s, a)
  {
    match s.receiver
    case Gate => a := CheckBucket;
    case Parked => a := ParkedCanStep(max, s);
    case Holding(_, _) => a := HolderCanStep(max, s);
    case Pushed(_, _) => a := Charge;
    case Charged(sid) =>
      ReachableInv(max, s);
      hide Reachable, TokensConserved, GateHeld, BucketSignalled, ReadersSignalled;
      a := NotifyReader;
  }

  // ---------- And only so much is under way ----------

  function ReceiverToil(r: Receiver): nat {
    match r
    case Gate => 1
    case Parked => 0
    case Reading => 0
    case Holding(_, n) => 5 * n + 10
    case Pushed(_, _) => 4
    case Charged(_) => 3
  }

  function ThreadToil(t: Thread): nat {
    match t
    case Free => 0
    case Owes(_) => 4
    case Notifying => 3
    case Recycling(_) => 8
    case OwesLocked(_, _) => 6
    case NotifyingLocked(_) => 4
    case Deleting(_) => 1
  }

  function StreamToil(st: Stream): nat {
    5 * (Sum(st.lens) + |st.lens|) + if st.readEvent then 1 else 0
  }

  function StreamToils(streams: map<nat, Stream>): map<nat, nat> {
    map sid | sid in streams :: StreamToil(streams[sid])
  }

  function ThreadToils(threads: map<nat, Thread>): map<nat, nat> {
    map t | t in threads :: ThreadToil(threads[t])
  }

  /** What is left to do before everything is settled. */
  ghost function Toil(s: Side): nat {
    Total(StreamToils(s.streams)) + Total(ThreadToils(s.threads)) + ReceiverToil(s.receiver)
    + if s.notify then 2 else 0
  }

  lemma StreamToilsUpdate(streams: map<nat, Stream>, sid: nat, st: Stream)
    requires sid in streams
    ensures Total(StreamToils(streams[sid := st]))
      == Total(StreamToils(streams)) - StreamToil(streams[sid]) + StreamToil(st)
  {
    hide StreamToil, Total;
    assert StreamToils(streams[sid := st]) == StreamToils(streams)[sid := StreamToil(st)];
    TotalUpdate(StreamToils(streams), sid, StreamToil(st));
  }

  lemma ThreadToilsUpdate(threads: map<nat, Thread>, t: nat, p: Thread)
    ensures Total(ThreadToils(threads[t := p]))
      == Total(ThreadToils(threads)) - (if t in threads then ThreadToil(threads[t]) else 0) + ThreadToil(p)
  {
    hide ThreadToil, Total;
    assert ThreadToils(threads[t := p]) == ThreadToils(threads)[t := ThreadToil(p)];
    TotalUpdate(ThreadToils(threads), t, ThreadToil(p));
  }

  lemma ReceiverToils(s: Side, a: Act)
    requires Enabled(s, a) && Settles(s, a) && ByReceiver(a)
    ensures Toil(ApplyReceiver(s, a)) < Toil(s)
  {
    hide Total, StreamToils, ThreadToils, Sum;
    var r := ApplyReceiver(s, a);
    if a.PushBytes? {
      if s.receiver.sid in s.streams && s.streams[s.receiver.sid].registered {
        StreamToilsUpdate(s.streams, s.receiver.sid, r.streams[s.receiver.sid]);
        SumSnoc(s.streams[s.receiver.sid].lens, s.receiver.n);
      }
    } else if a.NotifyReader? {
      StreamToilsUpdate(s.streams, s.receiver.sid, r.streams[s.receiver.sid]);
    }
  }

  lemma CloserToils(s: Side, a: Act)
    requires Enabled(s, a) && Settles(s, a) && ByCloser(a)
    ensures Toil(ApplyCloser(s, a)) < Toil(s)
  {
    hide Total, StreamToils, ThreadToils;
    var r := ApplyCloser(s, a);
    ThreadToilsUpdate(s.threads, a.t, r.threads[a.t]);
    if a.Recycle? || a.Delete? {
      var sid := At(s, a.t).sid;
      StreamToilsUpdate(s.streams, sid, r.streams[sid]);
    }
  }

  lemma OtherToils(s: Side, a: Act)
    requires Enabled(s, a) && Settles(s, a) && !ByReceiver(a) && !ByCloser(a)
    ensures Toil(ApplyOther(s, a)) < Toil(s)
  {
    hide Total, StreamToils, ThreadToils, Sum;
    var r := ApplyOther(s, a);
    match a
    case Take(t, sid, max) =>
      var lens := s.streams[sid].lens;
      StreamToilsUpdate(s.streams, sid, r.streams[sid]);
      ThreadToilsUpdate(s.threads, t, r.threads[t]);
      SumTake(lens, TakeCount(lens, max));
    case WakeByEvent(sid) => StreamToilsUpdate(s.streams, sid, r.streams[sid]);
    case Return(t) => ThreadToilsUpdate(s.threads, t, r.threads[t]);
    case Notify(t) => ThreadToilsUpdate(s.threads, t, r.threads[t]);
    case _ =>
  }

  lemma SettlingToils(s: Side, a: Act)
    requires Enabled(s, a) && Settles(s, a)
    ensures Toil(Apply(s, a)) < Toil(s)
  {
    hide Enabled, Settles, Toil, ByReceiver, ByCloser, ApplyReceiver, ApplyCloser, ApplyOther;
    if ByReceiver(a) {
      ReceiverToils(s, a);
    } else if ByCloser(a) {
      CloserToils(s, a);
    } else {
      OtherToils(s, a);
    }
  }

  /** A run in which every step settles something. */
  ghost predicate SettlingRun(s: Side, acts: seq<Act>)
    decreases |acts|
  {
    acts == [] || (Enabled(s, acts[0]) && Settles(s, acts[0]) && SettlingRun(Apply(s, acts[0]), acts[1..]))
  }

  ghost function Settled(s: Side, acts: seq<Act>): Side
    requires SettlingRun(s, acts)
    decreases |acts|
  {
    if acts == [] then s else Settled(Apply(s, acts[0]), acts[1..])
  }

  /** In whatever order: at most Toil(s) such steps can be taken, and they do not run out before recvLoop reads. */
  lemma {:induction false} MustRead(max: int, s: Side, acts: seq<Act>)
    requires Reachable(max, s) && SettlingRun(s, acts)
    ensures |acts| <= Toil(s)
    ensures max > 0 ==> var r := Settled(s, acts);
      r.receiver.Reading? || exists a :: Enabled(r, a) && Settles(r, a)
    decreases |acts|
  {
    hide Reachable, Enabled, Settles, Apply, Toil;
    if acts == [] {
      if max > 0 && !s.receiver.Reading? {
        var a := CanSettle(max, s);
      }
    } else {
      SettlingToils(s, acts[0]);
      var r := Step(max, s, acts[0]);
      MustRead(max, r, acts[1..]);
    }
  }

  ghost predicate CanRead(s: Side) {
    exists acts :: SettlingRun(s, acts) && Settled(s, acts).receiver.Reading?
  }

  lemma {:induction false} GetsToRead(max: int, s: Side) returns (acts: seq<Act>)
    requires max > 0 && Reachable(max, s)
    ensures SettlingRun(s, acts) && Settled(s, acts).receiver.Reading?
    decreases Toil(s)
  {
    hide Reachable, Enabled, Settles, Apply, Toil;
    acts := [];
    if !s.receiver.Reading? {
      var a := CanSettle(max, s);
      SettlingToils(s, a);
      var r := Step(max, s, a);
      var rest := GetsToRead(max, r);
      acts := [a] + rest;
      assert acts[1..] == rest;
    }
  }

  /** recvLoop can come back to reading from every reachable state if and only if the bucket starts with a token. */
  lemma ReceivesIff(max: int)
    ensures max > 0 <==> forall s :: Reachable(max, s) ==> CanRead(s)
  {
    hide Reachable, SettlingRun, Settled;
    if max > 0 {
      forall s | Reachable(max, s)
        ensures CanRead(s)
      {
        var acts := GetsToRead(max, s);
      }
    } else {
      StartIsReachable(max);
      NeverReads(max, Start(max));
    }
  }

  lemma NeverReads(max: int, s: Side)
    requires max <= 0 && Reachable(max, s)
    ensures !CanRead(s)
  {
    forall acts | SettlingRun(s, acts)
      ensures !Settled(s, acts).receiver.Reading?
    {
      SettlesIntoReachable(max, s, acts);
      NothingIsReceived(max, Settled(s, acts));
    }
    hide Reachable, SettlingRun, Settled;
  }

  lemma {:induction false} SettlesIntoReachable(max: int, s: Side, acts: seq<Act>)
    requires Reachable(max, s) && SettlingRun(s, acts)
    ensures Reachable(max, Settled(s, acts))
    decreases |acts|
  {
    hide Reachable, Enabled, Settles, Apply;
    if acts != [] {
      var r := Step(max, s, acts[0]);
      SettlesIntoReachable(max, r, acts[1..]);
    }
  }
}
