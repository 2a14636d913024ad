/** The receive buffers: slices that move between the allocator's pools, recvLoop, the streams and WriteTo, over
    one memory. No storage is ever owned twice, and so every stream's bytes come out as they went in. */
module Buffers {
  import opened Arith
  import opened Wire
  import opened Wrappers
  import opened Alloc

  /** One stream: what is still to be read, the whole slices to give back, and what WriteTo has taken out. */
  datatype StreamBuf = StreamBuf(buffers: seq<Slice>, heads: seq<Slice>, hand: seq<Slice>)

  const EMPTY := StreamBuf([], [], [])

  /** A buffer is what is left of its head: a non-empty tail of it. */
  predicate TailOf(b: Slice, head: Slice) {
    && head.Ok() && b.store == head.store && b.end == head.end
    && head.off <= b.off && 0 < b.len && b.off + b.len == head.off + head.len
  }

  predicate BufOk(b: StreamBuf) {
    && |b.buffers| == |b.heads|
    && (forall k :: 0 <= k < |b.heads| ==> TailOf(b.buffers[k], b.heads[k]) && Poolable(b.heads[k]))
    && |b.hand| <= 1 && (b.hand != [] ==> b.hand[0].Ok() && b.hand[0].len > 0)
  }

  // ---------- The sections under bufferLock ----------

  function Push(b: StreamBuf, s: Slice): StreamBuf {
    b.(buffers := b.buffers + [s], heads := b.heads + [s])
  }

  /** How much one Read into max bytes takes: never past the first buffer. */
  function ReadCount(b: StreamBuf, max: nat): nat {
    if b.buffers == [] then 0 else Min(max, b.buffers[0].len)
  }

  function AfterRead(b: StreamBuf, n: nat): StreamBuf
    requires BufOk(b) && n <= ReadCount(b, n)
  {
    if b.buffers == [] then b
    else if n == b.buffers[0].len then b.(buffers := b.buffers[1..], heads := b.heads[1..])
    else b.(buffers := b.buffers[0 := b.buffers[0].Drop(n)])
  }

  /** The head that a read of n bytes finishes with. */
  function Finished(b: StreamBuf, n: nat): seq<Slice>
    requires BufOk(b)
  {
    if b.buffers != [] && n == b.buffers[0].len then [b.heads[0]] else []
  }

  function AfterTake(b: StreamBuf): StreamBuf
    requires BufOk(b) && b.buffers != []
  {
    StreamBuf(b.buffers[1..], b.heads[1..], [b.buffers[0]])
  }

  function PutAll(p: Pools, q: seq<Slice>): (r: Pools)
    requires PoolsOk(p) && forall j :: 0 <= j < |q| ==> q[j].Ok()
    ensures PoolsOk(r)
    decreases |q|
  {
    if q == [] then p else PutAll(PutTo(p, q[0]), q[1..])
  }

  // ---------- The world and its steps ----------

  /** inbox holds the buffer that recvLoop is filling, if any; heap[k] are the bytes of storage k. */
  datatype World = World(pools: Pools, streams: seq<StreamBuf>, inbox: seq<Slice>, heap: seq<seq<byte>>)

  datatype Act =
    | Open                              // a new stream
    | Get(size: nat, pick: Option<nat>) // recvLoop: newbuf for a payload
    | Fill(bytes: seq<byte>)            // recvLoop: the payload is read into newbuf
    | Deliver(i: nat)                   // pushBytes
    | Discard                           // the frame's stream is unknown: newbuf is garbage
    | Read(i: nat, max: nat)            // tryRead, its section under the lock
    | TakeOut(i: nat)                   // WriteTo, its section under the lock
    | PutBack(i: nat)                   // WriteTo, once the bytes are written
    | Recycle(i: nat)                   // recycleTokens, when the stream closes

  /** One reader on each stream, so reads wait until WriteTo has put its buffer back. */
  predicate Enabled(w: World, a: Act) {
    match a
    case Open => true
    case Get(size, _) => w.inbox == [] && 0 < size < MAX_SIZE
    case Fill(bytes) => |w.inbox| == 1 && |bytes| == w.inbox[0].len
    case Deliver(i) => i < |w.streams| && |w.inbox| == 1
    case Discard => |w.inbox| == 1
    case Read(i, max) => i < |w.streams| && w.streams[i].hand == [] && max > 0
    case TakeOut(i) => i < |w.streams| && w.streams[i].hand == [] && w.streams[i].buffers != []
    case PutBack(i) => i < |w.streams| && |w.streams[i].hand| == 1
    case Recycle(i) => i < |w.streams|
  }

  function Overwrite(mem: seq<byte>, off: nat, bytes: seq<byte>): (r: seq<byte>)
    requires off + |bytes| <= |mem|
    ensures |r| == |mem| && r[off..off + |bytes|] == bytes
  {
    mem[..off] + bytes + mem[off + |bytes|..]
  }

  lemma OverwriteAt(mem: seq<byte>, off: nat, bytes: seq<byte>, k: nat)
    requires off + |bytes| <= |mem| && k < |mem|
    ensures Overwrite(mem, off, bytes)[k] == if off <= k < off + |bytes| then bytes[k - off] else mem[k]
  {}

  ghost function Apply(w: World, a: Act): World
    requires Inv(w) && Enabled(w, a)
  {
    match a
    case Open => w.(streams := w.streams + [EMPTY])
    case Get(size, pick) =>
      var (s, p) := GetFrom(w.pools, size, pick);
      w.(pools := p, inbox := [s],
         heap := if p.next == w.pools.next then w.heap else w.heap + [seq(s.end, _ => 0)])
    case Fill(bytes) =>
      var s := w.inbox[0];
      w.(heap := w.heap[s.store := Overwrite(w.heap[s.store], s.off, bytes)])
    case Deliver(i) =>
      w.(streams := w.streams[i := Push(w.streams[i], w.inbox[0])], inbox := [])
    case Discard => w.(inbox := [])
    case Read(i, max) =>
      var b := w.streams[i];
      var n := ReadCount(b, max);
      w.(streams := w.streams[i := AfterRead(b, n)], pools := PutAll(w.pools, Finished(b, n)))
    case TakeOut(i) => w.(streams := w.streams[i := AfterTake(w.streams[i])])
    case PutBack(i) =>
      var b := w.streams[i];
      w.(streams := w.streams[i := b.(hand := [])], pools := PutTo(w.pools, b.hand[0]))
    case Recycle(i) =>
      var b := w.streams[i];
      w.(streams := w.streams[i := b.(buffers := [], heads := [])], pools := PutAll(w.pools, b.heads))
  }

  // ---------- Ownership ----------

  function Count(q: seq<Slice>, s: nat): nat {
    if q == [] then 0 else (if q[0].store == s then 1 else 0) + Count(q[1..], s)
  }

  function CountIn(qs: seq<seq<Slice>>, s: nat): nat {
    if qs == [] then 0 else Count(qs[0], s) + CountIn(qs[1..], s)
  }

  function Held(streams: seq<StreamBuf>): (r: seq<seq<Slice>>)
    ensures |r| == |streams| && forall i :: 0 <= i < |r| ==> r[i] == streams[i].heads + streams[i].hand
  {
    seq(|streams|, i requires 0 <= i < |streams| => streams[i].heads + streams[i].hand)
  }

  /** How many times pools, streams, running WriteTo calls and recvLoop hold storage s. */
  function Holders(w: World, s: nat): nat {
    CountIn(w.pools.pools, s) + CountIn(Held(w.streams), s) + Count(w.inbox, s)
  }

  predicate InHeap(w: World, s: Slice) {
    s.Ok() && s.store < |w.heap| && s.end == |w.heap[s.store]|
  }

  predicate AllInHeap(w: World, qs: seq<seq<Slice>>) {
    forall i, j :: 0 <= i < |qs| && 0 <= j < |qs[i]| ==> InHeap(w, qs[i][j])
  }

  predicate StreamInHeap(w: World, b: StreamBuf) {
    && (forall j :: 0 <= j < |b.heads| ==> InHeap(w, b.heads[j]))
    && (forall j :: 0 <= j < |b.hand| ==> InHeap(w, b.hand[j]))
  }

  ghost predicate Shape(w: World) {
    && PoolsOk(w.pools) && w.pools.next == |w.heap|
    && (forall i :: 0 <= i < |w.streams| ==> BufOk(w.streams[i]) && StreamInHeap(w, w.streams[i]))
    && |w.inbox| <= 1 && (w.inbox != [] ==> InHeap(w, w.inbox[0]) && w.inbox[0].len > 0 && Poolable(w.inbox[0]))
    && AllInHeap(w, w.pools.pools)
  }

  ghost predicate OwnedOnce(w: World) {
    forall s: nat :: Holders(w, s) <= 1
  }

  ghost predicate Inv(w: World) {
    Shape(w) && OwnedOnce(w)
  }

  const START := World(Pools(seq(POOLS, _ => []), 0), [], [], [])

  // ---------- Counting owners ----------

  lemma {:induction false} CountConcat(a: seq<Slice>, b: seq<Slice>, s: nat)
    ensures Count(a + b, s) == Count(a, s) + Count(b, s)
  {
    if a == [] {
      assert a + b == b;
    } else {
      CountConcat(a[1..], b, s);
      assert (a + b)[1..] == a[1..] + b;
    }
  }

  lemma {:induction false} CountInConcat(a: seq<seq<Slice>>, b: seq<seq<Slice>>, s: nat)
    ensures CountIn(a + b, s) == CountIn(a, s) + CountIn(b, s)
  {
    if a == [] {
      assert a + b == b;
    } else {
      CountInConcat(a[1..], b, s);
      assert (a + b)[1..] == a[1..] + b;
    }
  }

  lemma {:induction false} CountInUpdate(qs: seq<seq<Slice>>, i: nat, q: seq<Slice>, s: nat)
    requires i < |qs|
    ensures CountIn(qs[i := q], s) == CountIn(qs, s) - Count(qs[i], s) + Count(q, s)
  {
    hide Count;
    if i == 0 {
      assert qs[i := q][1..] == qs[1..];
    } else {
      CountInUpdate(qs[1..], i - 1, q, s);
      assert qs[i := q][1..] == qs[1..][i - 1 := q];
    }
  }

  lemma {:induction false} CountPositive(q: seq<Slice>, j: nat)
    requires j < |q|
    ensures Count(q, q[j].store) > 0
  {
    if j > 0 {
      CountPositive(q[1..], j - 1);
    }
  }

  lemma {:induction false} CountZero(q: seq<Slice>, s: nat)
    requires forall j :: 0 <= j < |q| ==> q[j].store != s
    ensures Count(q, s) == 0
  {
    if q != [] {
      CountZero(q[1..], s);
    }
  }

  lemma {:induction false} CountInZero(qs: seq<seq<Slice>>, s: nat)
    requires forall i, j :: 0 <= i < |qs| && 0 <= j < |qs[i]| ==> qs[i][j].store != s
    ensures CountIn(qs, s) == 0
  {
    if qs != [] {
      CountZero(qs[0], s);
      assert forall i :: 0 <= i < |qs[1..]| ==> qs[1..][i] == qs[i + 1];
      CountInZero(qs[1..], s);
    }
  }

  /** A slice that is given back adds its storage to the pools exactly if it is poolable. */
  lemma PutToCount(p: Pools, x: Slice, s: nat)
    requires PoolsOk(p) && x.Ok()
    ensures CountIn(PutTo(p, x).pools, s) == CountIn(p.pools, s) + if Poolable(x) then Count([x], s) else 0
    ensures PutTo(p, x).next == p.next
  {
    if Poolable(x) {
      PoolableIffPowerOfTwo(x);
      var k := FloorLog2(x.Cap());
      CountInUpdate(p.pools, k, p.pools[k] + [x], s);
      CountConcat(p.pools[k], [x], s);
    }
  }

  lemma {:induction false} PutAllCount(p: Pools, q: seq<Slice>, s: nat)
    requires PoolsOk(p) && forall j :: 0 <= j < |q| ==> q[j].Ok()
    ensures CountIn(PutAll(p, q).pools, s) <= CountIn(p.pools, s) + Count(q, s)
    ensures (forall j :: 0 <= j < |q| ==> Poolable(q[j])) ==>
      CountIn(PutAll(p, q).pools, s) == CountIn(p.pools, s) + Count(q, s)
    ensures PutAll(p, q).next == p.next
    decreases |q|
  {
    if q != [] {
      PutToCount(p, q[0], s);
      PutAllCount(PutTo(p, q[0]), q[1..], s);
    }
  }

  /** Getting a slice moves its storage out of its pool, or makes a new one. */
  lemma GetFromCount(p: Pools, size: nat, pick: Option<nat>, s: nat)
    requires PoolsOk(p) && 0 < size <= MAX_SIZE
    ensures var (x, r) := GetFrom(p, size, pick);
      if r.next == p.next then CountIn(p.pools, s) == CountIn(r.pools, s) + Count([x], s)
      else x.store == p.next && r == p.(next := p.next + 1) && x.off == 0
  {
    SizeClassIsLeast(size);
    var k := SizeClass(size);
    if pick.Some? && pick.value < |p.pools[k]| {
      var q, i := p.pools[k], pick.value;
      CountInUpdate(p.pools, k, q[..i] + q[i + 1..], s);
      CountConcat(q[..i], q[i + 1..], s);
      CountConcat(q[..i], [q[i]] + q[i + 1..], s);
      assert q == q[..i] + ([q[i]] + q[i + 1..]);
    }
  }

  lemma HeldUpdate(streams: seq<StreamBuf>, i: nat, b: StreamBuf, s: nat)
    requires i < |streams|
    ensures Held(streams[i := b]) == Held(streams)[i := b.heads + b.hand]
    ensures CountIn(Held(streams[i := b]), s) == CountIn(Held(streams), s)
      - Count(streams[i].heads, s) - Count(streams[i].hand, s) + Count(b.heads, s) + Count(b.hand, s)
  {
    CountInUpdate(Held(streams), i, b.heads + b.hand, s);
    CountConcat(streams[i].heads, streams[i].hand, s);
    CountConcat(b.heads, b.hand, s);
  }

  ghost predicate MakesStorage(w: World, a: Act)
    requires Inv(w) && Enabled(w, a)
  {
    a.Get? && GetFrom(w.pools, a.size, a.pick).1.next != w.pools.next
  }

  lemma OpenAddsNoHolder(streams: seq<StreamBuf>, s: nat)
    ensures CountIn(Held(streams + [EMPTY]), s) == CountIn(Held(streams), s)
  {
    assert Held(streams + [EMPTY]) == Held(streams) + [[]];
    CountInConcat(Held(streams), [[]], s);
  }

  /** What a step leaves to nobody: the buffer of a payload for no stream, and the rest of a buffer that a reader had
      begun before WriteTo took it, unless its capacity happens to be a power of two. */
  ghost function LeftBehind(w: World, a: Act): seq<Slice>
    requires Inv(w) && Enabled(w, a)
  {
    if a.Discard? then w.inbox
    else if a.PutBack? && !Poolable(w.streams[a.i].hand[0]) then w.streams[a.i].hand
    else []
  }

  lemma MovedHolders(w: World, a: Act, s: nat)
    requires Inv(w) && Enabled(w, a) && (a.Deliver? || a.TakeOut?)
    ensures Holders(Apply(w, a), s) == Holders(w, s)
  {
    hide PutTo, GetFrom, Poolable, PutAll, CountIn, Held;
    var b := w.streams[a.i];
    if a.Deliver? {
      HeldUpdate(w.streams, a.i, Push(b, w.inbox[0]), s);
      CountConcat(b.heads, [w.inbox[0]], s);
      assert w.inbox == [w.inbox[0]];
    } else {
      HeldUpdate(w.streams, a.i, AfterTake(b), s);
    }
  }

  /** Pushing, reading, WriteTo and recycling: slices move between a stream, recvLoop's hand and the pools. */
  lemma StreamStepHolders(w: World, a: Act, s: nat)
    requires Inv(w) && Enabled(w, a) && (a.Deliver? || a.Read? || a.TakeOut? || a.PutBack? || a.Recycle?)
    ensures Holders(Apply(w, a), s) == Holders(w, s) - Count(LeftBehind(w, a), s)
  {
    hide PutTo, GetFrom, Poolable, PutAll, CountIn, Held;
    var b := w.streams[a.i];
    match a
    case Read(i, max) =>
      HeldUpdate(w.streams, i, AfterRead(b, ReadCount(b, max)), s);
      PutAllCount(w.pools, Finished(b, ReadCount(b, max)), s);
    case PutBack(i) =>
      HeldUpdate(w.streams, i, b.(hand := []), s);
      PutToCount(w.pools, b.hand[0], s);
      assert b.hand == [b.hand[0]];
    case Recycle(i) =>
      HeldUpdate(w.streams, i, b.(buffers := [], heads := []), s);
      PutAllCount(w.pools, b.heads, s);
    case _ =>
      hide Inv, Apply, Holders;
      MovedHolders(w, a, s);
  }

  /** Every step keeps count of who holds a storage: a new one has one holder, one that is left behind loses its holder,
      and any other is only passed on. */
  lemma HoldersAfter(w: World, a: Act, s: nat)
    requires Inv(w) && Enabled(w, a)
    ensures Holders(Apply(w, a), s)
         == Holders(w, s) + (if MakesStorage(w, a) && s == |w.heap| then 1 else 0) - Count(LeftBehind(w, a), s)
  {
    hide PutTo, GetFrom, Poolable, PutAll, CountIn, Held;
    match a
    case Open => OpenAddsNoHolder(w.streams, s);
    case Get(size, pick) =>
      GetFromCount(w.pools, size, pick, s);
      var x := GetFrom(w.pools, size, pick).0;
      assert Apply(w, a).inbox == [x] && Apply(w, a).pools == GetFrom(w.pools, size, pick).1;
      assert Count([x], s) == if x.store == s then 1 else 0;
    case Fill(_) =>
    case Discard =>
    case _ => StreamStepHolders(w, a, s);
  }

  lemma NoHolderYet(w: World)
    requires Shape(w)
    ensures Holders(w, |w.heap|) == 0
  {
    CountInZero(w.pools.pools, |w.heap|);
    forall i, j | 0 <= i < |w.streams| && 0 <= j < |Held(w.streams)[i]|
      ensures Held(w.streams)[i][j].store != |w.heap|
    {
      var b := w.streams[i];
      assert Held(w.streams)[i][j] == if j < |b.heads| then b.heads[j] else b.hand[j - |b.heads|];
    }
    CountInZero(Held(w.streams), |w.heap|);
    CountZero(w.inbox, |w.heap|);
  }

  lemma OwnedOnceKept(w: World, a: Act)
    requires Inv(w) && Enabled(w, a)
    ensures OwnedOnce(Apply(w, a))
  {
    NoHolderYet(w);
    forall s: nat
      ensures Holders(Apply(w, a), s) <= 1
    {
      HoldersAfter(w, a, s);
    }
  }

  lemma PutToInHeap(w: World, p: Pools, x: Slice)
    requires PoolsOk(p) && InHeap(w, x) && AllInHeap(w, p.pools)
    ensures AllInHeap(w, PutTo(p, x).pools)
  {}

  lemma {:induction false} PutAllInHeap(w: World, p: Pools, q: seq<Slice>)
    requires PoolsOk(p) && (forall j :: 0 <= j < |q| ==> q[j].Ok() && InHeap(w, q[j])) && AllInHeap(w, p.pools)
    ensures AllInHeap(w, PutAll(p, q).pools) && PutAll(p, q).next == p.next
    decreases |q|
  {
    if q != [] {
      PutToInHeap(w, p, q[0]);
      PutAllInHeap(w, PutTo(p, q[0]), q[1..]);
    }
  }

  /** A slice from Get is in the memory, or it is the whole of a storage that is new. */
  lemma NewOrPooled(w: World, size: nat, pick: Option<nat>)
    requires PoolsOk(w.pools) && AllInHeap(w, w.pools.pools) && 0 < size <= MAX_SIZE
    ensures var (x, p) := GetFrom(w.pools, size, pick);
      if p.next == w.pools.next then InHeap(w, x)
      else x.store == w.pools.next && p.next == w.pools.next + 1 && x.off == 0
  {
    SizeClassIsLeast(size);
  }

  lemma GetKeepsShape(w: World, size: nat, pick: Option<nat>)
    requires Inv(w) && Enabled(w, Get(size, pick))
    ensures Shape(Apply(w, Get(size, pick)))
  {
    var w' := Apply(w, Get(size, pick));
    var x := w'.inbox[0];
    SizeClassIsLeast(size);
    PoolableIffPowerOfTwo(x);
    hide Poolable, Pow2, FloorLog2;
    forall i, j | 0 <= i < |w'.pools.pools| && 0 <= j < |w'.pools.pools[i]|
      ensures InHeap(w', w'.pools.pools[i][j])
    {
      var q := w.pools.pools[i];
      var k := if w'.pools.pools[i] != q && j >= pick.value then j + 1 else j;
      assert w'.pools.pools[i][j] == q[k];
    }
  }

  lemma ShapeOfUpdate(w: World, i: nat, b: StreamBuf, p: Pools, inbox: seq<Slice>)
    requires Shape(w) && i < |w.streams| && BufOk(b) && StreamInHeap(w, b)
    requires PoolsOk(p) && p.next == w.pools.next && AllInHeap(w, p.pools)
    requires inbox == w.inbox || inbox == []
    ensures Shape(World(p, w.streams[i := b], inbox, w.heap))
  {
    hide Poolable, PoolsOk, BufOk;
    var w' := World(p, w.streams[i := b], inbox, w.heap);
    assert forall x :: InHeap(w, x) == InHeap(w', x);
  }

  lemma ReadKeepsShape(w: World, i: nat, max: nat)
    requires Inv(w) && Enabled(w, Read(i, max))
    ensures Shape(Apply(w, Read(i, max)))
  {
    var b := w.streams[i];
    var n := ReadCount(b, max);
    assert BufOk(AfterRead(b, n)) && StreamInHeap(w, AfterRead(b, n)) && forall x <- Finished(b, n) :: InHeap(w, x);
    hide BufOk, Poolable, OwnedOnce;
    PutAllInHeap(w, w.pools, Finished(b, n));
    ShapeOfUpdate(w, i, AfterRead(b, n), PutAll(w.pools, Finished(b, n)), w.inbox);
  }

  lemma WriteToKeepsShape(w: World, a: Act, i: nat)
    requires Inv(w) && Enabled(w, a) && (a == TakeOut(i) || a == PutBack(i) || a == Recycle(i))
    ensures Shape(Apply(w, a))
  {
    hide Poolable, FloorLog2, Pow2, Holders;
    var w' := Apply(w, a);
    if a == PutBack(i) {
      PutToInHeap(w, w.pools, w.streams[i].hand[0]);
    } else if a == Recycle(i) {
      PutAllInHeap(w, w.pools, w.streams[i].heads);
    }
    ShapeOfUpdate(w, i, w'.streams[i], w'.pools, w.inbox);
  }

  lemma InboxKeepsShape(w: World, a: Act)
    requires Inv(w) && Enabled(w, a) && (a.Open? || a.Fill? || a.Discard?)
    ensures Shape(Apply(w, a))
  {
    hide Poolable, PoolsOk, BufOk, Holders;
    var w' := Apply(w, a);
    assert forall x :: InHeap(w, x) ==> InHeap(w', x);
    assert BufOk(EMPTY) by { EmptyOk(); }
  }

  lemma EmptyOk()
    ensures BufOk(EMPTY)
  {}

  lemma DeliverKeepsShape(w: World, i: nat)
    requires Inv(w) && Enabled(w, Deliver(i))
    ensures Shape(Apply(w, Deliver(i)))
  {
    hide Poolable, FloorLog2, Pow2, Holders;
    ShapeOfUpdate(w, i, Apply(w, Deliver(i)).streams[i], w.pools, []);
  }

  lemma ShapeKept(w: World, a: Act)
    requires Inv(w) && Enabled(w, a)
    ensures Shape(Apply(w, a))
  {
    hide Inv, Enabled, Apply, Shape;
    match a
    case Get(size, pick) => GetKeepsShape(w, size, pick);
    case Deliver(i) => DeliverKeepsShape(w, i);
    case Read(i, max) => ReadKeepsShape(w, i, max);
    case TakeOut(i) => WriteToKeepsShape(w, a, i);
    case PutBack(i) => WriteToKeepsShape(w, a, i);
    case Recycle(i) => WriteToKeepsShape(w, a, i);
    case _ => InboxKeepsShape(w, a);
  }

  lemma InvKept(w: World, a: Act)
    requires Inv(w) && Enabled(w, a)
    ensures Inv(Apply(w, a))
  {
    ShapeKept(w, a);
    OwnedOnceKept(w, a);
  }

  // ---------- Every stream is a queue of bytes ----------

  /** The bytes that a slice shows in the memory. */
  function Bytes(heap: seq<seq<byte>>, x: Slice): (r: seq<byte>)
    requires x.Ok() && x.store < |heap| && x.end == |heap[x.store]|
    ensures |r| == x.len
  {
    heap[x.store][x.off..x.off + x.len]
  }

  predicate Readable(heap: seq<seq<byte>>, q: seq<Slice>) {
    forall j :: 0 <= j < |q| ==> q[j].Ok() && q[j].store < |heap| && q[j].end == |heap[q[j].store]|
  }

  function Content(heap: seq<seq<byte>>, q: seq<Slice>): seq<byte>
    requires Readable(heap, q)
  {
    if q == [] then [] else Bytes(heap, q[0]) + Content(heap, q[1..])
  }

  function Waiting(b: StreamBuf): seq<Slice> {
    b.hand + b.buffers
  }

  lemma WaitingReadable(w: World, i: nat)
    requires Shape(w) && i < |w.streams|
    ensures Readable(w.heap, Waiting(w.streams[i]))
  {
    var b := w.streams[i];
    forall j | 0 <= j < |Waiting(b)|
      ensures var x := Waiting(b)[j]; x.Ok() && x.store < |w.heap| && x.end == |w.heap[x.store]|
    {
      if j < |b.hand| {
        assert Waiting(b)[j] == b.hand[j] && InHeap(w, b.hand[j]);
      } else {
        assert TailOf(b.buffers[j - |b.hand|], b.heads[j - |b.hand|]) && InHeap(w, b.heads[j - |b.hand|]);
      }
    }
  }

  /** The bytes that stream i has received and not yet given to its reader. */
  ghost function Queue(w: World, i: nat): seq<byte>
    requires Inv(w) && i < |w.streams|
  {
    WaitingReadable(w, i);
    Content(w.heap, Waiting(w.streams[i]))
  }

  ghost function BytesIn(w: World, a: Act, i: nat): seq<byte>
    requires Inv(w) && Enabled(w, a)
  {
    if a == Deliver(i) then Bytes(w.heap, w.inbox[0]) else []
  }

  /** What the reader of stream i gets in this step: a Read's copy, or what WriteTo has written. */
  ghost function BytesOut(w: World, a: Act, i: nat): seq<byte>
    requires Inv(w) && Enabled(w, a) && i < |w.streams|
  {
    WaitingReadable(w, i);
    var b := w.streams[i];
    if a.Read? && a.i == i && b.buffers != [] then
      assert Waiting(b)[0] == b.buffers[0];
      Bytes(w.heap, b.buffers[0].Take(ReadCount(b, a.max)))
    else if a == PutBack(i) then
      assert Waiting(b)[0] == b.hand[0];
      Bytes(w.heap, b.hand[0])
    else []
  }

  lemma {:induction false} SameContent(heap: seq<seq<byte>>, heap': seq<seq<byte>>, q: seq<Slice>)
    requires Readable(heap, q) && Readable(heap', q)
    requires forall j :: 0 <= j < |q| ==> heap[q[j].store] == heap'[q[j].store]
    ensures Content(heap, q) == Content(heap', q)
  {
    if q != [] {
      SameContent(heap, heap', q[1..]);
    }
  }

  lemma ContentCons(heap: seq<seq<byte>>, x: Slice, q: seq<Slice>)
    requires Readable(heap, [x]) && Readable(heap, q)
    ensures Readable(heap, [x] + q) && ([x][0]).Ok() && x.store < |heap| && x.end == |heap[x.store]|
    ensures Content(heap, [x] + q) == Bytes(heap, x) + Content(heap, q)
  {
    hide Bytes;
    assert [x][0] == x && ([x] + q)[1..] == q;
  }

  lemma {:induction false} ContentConcat(heap: seq<seq<byte>>, q: seq<Slice>, x: Slice)
    requires Readable(heap, q) && x.Ok() && x.store < |heap| && x.end == |heap[x.store]|
    ensures Readable(heap, q + [x]) && Content(heap, q + [x]) == Content(heap, q) + Bytes(heap, x)
  {
    if q == [] {
      hide Bytes;
      assert q + [x] == [x] + [];
      ContentCons(heap, x, []);
      assert Bytes(heap, x) + [] == Bytes(heap, x) && [] + Bytes(heap, x) == Bytes(heap, x);
    } else {
      hide Bytes, Content;
      ContentConcat(heap, q[1..], x);
      ContentCons(heap, q[0], q[1..]);
      ContentCons(heap, q[0], q[1..] + [x]);
      assert q == [q[0]] + q[1..] && q + [x] == [q[0]] + (q[1..] + [x]);
      assert (Bytes(heap, q[0]) + Content(heap, q[1..])) + Bytes(heap, x)
        == Bytes(heap, q[0]) + (Content(heap, q[1..]) + Bytes(heap, x));
    }
  }

  lemma SharedWithInbox(w: World, i: nat, j: nat)
    requires Shape(w) && i < |w.streams| && j < |Waiting(w.streams[i])| && w.inbox != []
    requires Waiting(w.streams[i])[j].store == w.inbox[0].store
    ensures Holders(w, w.inbox[0].store) >= 2
  {
    var b, s := w.streams[i], w.inbox[0].store;
    CountPositive(w.inbox, 0);
    var k := if j < |b.hand| then |b.heads| + j else j - |b.hand|;
    assert j >= |b.hand| ==> TailOf(b.buffers[k], b.heads[k]);
    assert Held(w.streams)[i][k].store == s;
    CountPositive(Held(w.streams)[i], k);
    CountInUpdate(Held(w.streams), i, [], s);
  }

  /** The buffer being filled is nobody else's: filling it leaves every stream's bytes as they are. */
  lemma FillTouchesNoStream(w: World, i: nat, j: nat)
    requires Inv(w) && i < |w.streams| && j < |Waiting(w.streams[i])| && w.inbox != []
    ensures Waiting(w.streams[i])[j].store != w.inbox[0].store
  {
    if Waiting(w.streams[i])[j].store == w.inbox[0].store {
      SharedWithInbox(w, i, j);
    }
  }

  lemma OtherStreamsKeepQueue(w: World, a: Act, i: nat)
    requires Inv(w) && Enabled(w, a) && Inv(Apply(w, a)) && i < |w.streams|
    requires Apply(w, a).streams[i] == w.streams[i]
    ensures Queue(Apply(w, a), i) == Queue(w, i)
  {
    WaitingReadable(w, i);
    WaitingReadable(Apply(w, a), i);
    forall j | 0 <= j < |Waiting(w.streams[i])|
      ensures var s := Waiting(w.streams[i])[j].store; Apply(w, a).heap[s] == w.heap[s]
    {
      if a.Fill? {
        FillTouchesNoStream(w, i, j);
      }
    }
    SameContent(w.heap, Apply(w, a).heap, Waiting(w.streams[i]));
  }

  lemma BytesSplit(heap: seq<seq<byte>>, x: Slice, n: nat)
    requires x.Ok() && x.store < |heap| && x.end == |heap[x.store]| && n <= x.len
    ensures x.Take(n).Ok() && x.Drop(n).Ok() && Bytes(heap, x) == Bytes(heap, x.Take(n)) + Bytes(heap, x.Drop(n))
  {}

  lemma ReadSplitsFront(heap: seq<seq<byte>>, b: StreamBuf, n: nat)
    requires BufOk(b) && b.buffers != [] && n <= b.buffers[0].len
    requires Readable(heap, b.buffers) && Readable(heap, AfterRead(b, n).buffers)
    ensures Readable(heap, [b.buffers[0].Take(n)])
    ensures Content(heap, b.buffers) == Bytes(heap, b.buffers[0].Take(n)) + Content(heap, AfterRead(b, n).buffers)
  {
    hide BufOk, Bytes;
    var x := b.buffers[0];
    BytesSplit(heap, x, n);
    if n < x.len {
      var rest := b.buffers[1..];
      assert AfterRead(b, n).buffers == [x.Drop(n)] + rest;
      assert ([x.Drop(n)] + rest)[1..] == rest;
      var c := Content(heap, rest);
      assert Bytes(heap, x.Take(n)) + (Bytes(heap, x.Drop(n)) + c) == Bytes(heap, x) + c;
    } else {
      assert x.Take(n) == x;
    }
  }

  lemma ReadTakesFront(w: World, i: nat, max: nat)
    requires Inv(w) && Enabled(w, Read(i, max)) && Inv(Apply(w, Read(i, max))) && w.streams[i].buffers != []
    ensures Queue(w, i) == BytesOut(w, Read(i, max), i) + Queue(Apply(w, Read(i, max)), i)
  {
    hide Content, Bytes, BufOk, PutAll, OwnedOnce;
    var b, w' := w.streams[i], Apply(w, Read(i, max));
    WaitingReadable(w, i);
    WaitingReadable(w', i);
    assert w'.heap == w.heap && w'.streams[i] == AfterRead(b, ReadCount(b, max));
    hide Inv, Apply;
    assert Waiting(b) == b.buffers && Waiting(w'.streams[i]) == w'.streams[i].buffers;
    ReadSplitsFront(w.heap, b, ReadCount(b, max));
  }

  lemma DeliverAddsBack(w: World, i: nat)
    requires Inv(w) && Enabled(w, Deliver(i)) && Inv(Apply(w, Deliver(i)))
    ensures Queue(Apply(w, Deliver(i)), i) == Queue(w, i) + BytesIn(w, Deliver(i), i)
  {
    var b, w' := w.streams[i], Apply(w, Deliver(i));
    WaitingReadable(w, i);
    WaitingReadable(w', i);
    assert Waiting(w'.streams[i]) == Waiting(b) + [w.inbox[0]];
    ContentConcat(w.heap, Waiting(b), w.inbox[0]);
  }

  lemma WriteToTakesFront(w: World, a: Act, i: nat)
    requires Inv(w) && Enabled(w, a) && (a == TakeOut(i) || a == PutBack(i)) && Inv(Apply(w, a))
    ensures Queue(w, i) == BytesOut(w, a, i) + Queue(Apply(w, a), i)
  {
    var b, w' := w.streams[i], Apply(w, a);
    WaitingReadable(w, i);
    WaitingReadable(w', i);
    assert w'.heap == w.heap;
    if a == TakeOut(i) {
      assert Waiting(w'.streams[i]) == Waiting(b);
    } else {
      assert Waiting(b)[1..] == Waiting(w'.streams[i]);
    }
  }

  /** Each step of each stream is a step of a byte queue: what comes in goes to the back, what comes out was at
      the front. Only recycling, when the stream closes, throws bytes away. */
  lemma StepIsQueueStep(w: World, a: Act, i: nat)
    requires Inv(w) && Enabled(w, a) && i < |w.streams| && a != Recycle(i)
    ensures Inv(Apply(w, a)) && i < |Apply(w, a).streams|
    ensures Queue(w, i) + BytesIn(w, a, i) == BytesOut(w, a, i) + Queue(Apply(w, a), i)
  {
    InvKept(w, a);
    if a == Deliver(i) {
      DeliverAddsBack(w, i);
    } else if a == TakeOut(i) || a == PutBack(i) {
      WriteToTakesFront(w, a, i);
    } else if a.Read? && a.i == i && w.streams[i].buffers != [] {
      ReadTakesFront(w, i, a.max);
    } else {
      assert Apply(w, a).streams[i] == w.streams[i];
      OtherStreamsKeepQueue(w, a, i);
    }
  }

  // ---------- Whole runs ----------

  /** What a run of steps puts into stream i, what its reader gets, and the world it ends in. */
  datatype Trace = Trace(into: seq<byte>, out: seq<byte>, end: World)

  ghost predicate RunsFrom(w: World, acts: seq<Act>)
    requires Inv(w)
    decreases |acts|
  {
    acts == [] || (Enabled(w, acts[0]) && (InvKept(w, acts[0]); RunsFrom(Apply(w, acts[0]), acts[1..])))
  }

  ghost function Run(w: World, acts: seq<Act>, i: nat): (t: Trace)
    requires Inv(w) && RunsFrom(w, acts) && i < |w.streams|
    ensures Inv(t.end) && i < |t.end.streams|
    decreases |acts|
  {
    if acts == [] then Trace([], [], w)
    else
      InvKept(w, acts[0]);
      var t := Run(Apply(w, acts[0]), acts[1..], i);
      Trace(BytesIn(w, acts[0], i) + t.into, BytesOut(w, acts[0], i) + t.out, t.end)
  }

  ghost function After(w: World, acts: seq<Act>): World
    requires Inv(w) && RunsFrom(w, acts)
    decreases |acts|
  {
    if acts == [] then w else (InvKept(w, acts[0]); After(Apply(w, acts[0]), acts[1..]))
  }

  /** In every world that any run reaches, each storage has at most one holder among pools, streams, WriteTo calls
      and recvLoop, so none is put back twice; pool k holds capacity 2^k; buffers and heads are in lockstep. */
  lemma {:induction false} EveryRunIsSafe(w: World, acts: seq<Act>)
    requires Inv(w) && RunsFrom(w, acts)
    ensures var e := After(w, acts);
      OwnedOnce(e) && PoolsOk(e.pools) && forall i :: 0 <= i < |e.streams| ==> BufOk(e.streams[i])
    decreases |acts|
  {
    if acts != [] {
      InvKept(w, acts[0]);
      EveryRunIsSafe(Apply(w, acts[0]), acts[1..]);
    }
  }

  lemma StartIsSafe()
    ensures Inv(START)
  {
    forall s: nat
      ensures Holders(START, s) == 0
    {
      CountInZero(START.pools.pools, s);
      CountInZero(Held(START.streams), s);
    }
  }

  lemma Chain(q: seq<byte>, x: seq<byte>, y: seq<byte>, q1: seq<byte>, into: seq<byte>, out: seq<byte>, qe: seq<byte>)
    requires q + x == y + q1 && q1 + into == out + qe
    ensures q + (x + into) == (y + out) + qe
  {
    assert q + (x + into) == (q + x) + into;
    assert (y + q1) + into == y + (q1 + into);
    assert y + (out + qe) == (y + out) + qe;
  }

  /** Over any run of pushes, partial reads, WriteTo calls and recycling of other streams, what the reader got is
      a prefix of what was delivered and the rest waits in order: recycled storage never shows through. */
  lemma {:induction false} FirstInFirstOut(w: World, acts: seq<Act>, i: nat)
    requires Inv(w) && RunsFrom(w, acts) && i < |w.streams| && Recycle(i) !in acts
    ensures var t := Run(w, acts, i); Queue(w, i) + t.into == t.out + Queue(t.end, i)
    decreases |acts|
  {
    hide Apply, Inv, Queue, BytesIn, BytesOut, Enabled;
    if acts != [] {
      var w1 := Apply(w, acts[0]);
      StepIsQueueStep(w, acts[0], i);
      FirstInFirstOut(w1, acts[1..], i);
      var t := Run(w1, acts[1..], i);
      Chain(Queue(w, i), BytesIn(w, acts[0], i), BytesOut(w, acts[0], i), Queue(w1, i), t.into, t.out, Queue(t.end, i));
    }
  }

  // ---------- What one call does in several steps ----------

  /** A payload arrives: a buffer is got and filled, and pushed to stream to, or dropped when there is none. */
  ghost function Arrive(w: World, data: seq<byte>, pick: Option<nat>, to: Option<nat>): (r: World)
    requires Inv(w) && w.inbox == [] && 0 < |data| < MAX_SIZE && (to.Some? ==> to.value < |w.streams|)
    ensures Inv(r)
  {
    InvKept(w, Get(|data|, pick));
    var got := Apply(w, Get(|data|, pick));
    InvKept(got, Fill(data));
    var filled := Apply(got, Fill(data));
    var last := if to.Some? then Deliver(to.value) else Discard;
    InvKept(filled, last);
    Apply(filled, last)
  }

  lemma ArriveIs(w: World, data: seq<byte>, pick: Option<nat>, to: Option<nat>)
    requires Inv(w) && w.inbox == [] && 0 < |data| < MAX_SIZE && (to.Some? ==> to.value < |w.streams|)
    ensures var (x, p) := GetFrom(w.pools, |data|, pick);
      var heap := if p.next == w.pools.next then w.heap else w.heap + [seq(x.end, _ => 0)];
      && x.store < |heap| && x.off + |data| <= |heap[x.store]| && x.end == |heap[x.store]|
      && Arrive(w, data, pick, to)
        == World(p, if to.Some? then w.streams[to.value := Push(w.streams[to.value], x)] else w.streams, [],
                 heap[x.store := Overwrite(heap[x.store], x.off, data)])
  {
    hide GetFrom, PutTo, Poolable, OwnedOnce;
    NewOrPooled(w, |data|, pick);
    InvKept(w, Get(|data|, pick));
    InvKept(Apply(w, Get(|data|, pick)), Fill(data));
  }

  /** The payload goes to the back of its stream's queue, and no other byte of any stream changes. */
  lemma ArriveQueues(w: World, data: seq<byte>, pick: Option<nat>, to: Option<nat>, i: nat)
    requires Inv(w) && w.inbox == [] && 0 < |data| < MAX_SIZE && (to.Some? ==> to.value < |w.streams|)
    requires i < |w.streams|
    ensures i < |Arrive(w, data, pick, to).streams|
    ensures Queue(Arrive(w, data, pick, to), i) == Queue(w, i) + if to == Some(i) then data else []
  {
    hide Inv, Queue, GetFrom;
    var got := Apply(w, Get(|data|, pick));
    StepIsQueueStep(w, Get(|data|, pick), i);
    var filled := Apply(got, Fill(data));
    StepIsQueueStep(got, Fill(data), i);
    var last := if to.Some? then Deliver(to.value) else Discard;
    StepIsQueueStep(filled, last, i);
    FilledBytes(got, data);
    NothingElse(Queue(w, i), Queue(got, i));
    NothingElse(Queue(got, i), Queue(filled, i));
    NothingElse(Queue(filled, i), Queue(Apply(filled, last), i));
  }

  lemma NothingElse(q: seq<byte>, r: seq<byte>)
    ensures q + [] == q && [] + r == r
  {}

  lemma FilledBytes(w: World, data: seq<byte>)
    requires Inv(w) && Enabled(w, Fill(data))
    ensures Inv(Apply(w, Fill(data))) && Apply(w, Fill(data)).inbox == w.inbox
    ensures Bytes(Apply(w, Fill(data)).heap, w.inbox[0]) == data
  {
    InvKept(w, Fill(data));
  }

  /** WriteTo takes the first buffer of stream i out, writes it, and offers it back. */
  ghost function WriteOut(w: World, i: nat): (r: World)
    requires Inv(w) && Enabled(w, TakeOut(i))
    ensures Inv(r)
  {
    InvKept(w, TakeOut(i));
    InvKept(Apply(w, TakeOut(i)), PutBack(i));
    Apply(Apply(w, TakeOut(i)), PutBack(i))
  }

  lemma WriteOutIs(w: World, i: nat)
    requires Inv(w) && Enabled(w, TakeOut(i))
    ensures var b := w.streams[i];
      && b.buffers[0].Ok() && |b.heads| > 0
      && WriteOut(w, i) == w.(streams := w.streams[i := StreamBuf(b.buffers[1..], b.heads[1..], [])],
                              pools := PutTo(w.pools, b.buffers[0]))
  {
    assert TailOf(w.streams[i].buffers[0], w.streams[i].heads[0]);
    InvKept(w, TakeOut(i));
    hide OwnedOnce, PutTo;
  }

  lemma WriteOutQueues(w: World, i: nat, k: nat)
    requires Inv(w) && Enabled(w, TakeOut(i)) && k < |w.streams|
    ensures k < |WriteOut(w, i).streams| && w.streams[i].buffers[0].Ok() && Readable(w.heap, w.streams[i].buffers)
    ensures Queue(w, k) == (if k == i then Bytes(w.heap, w.streams[i].buffers[0]) else []) + Queue(WriteOut(w, i), k)
  {
    WaitingReadable(w, i);
    assert Waiting(w.streams[i]) == w.streams[i].buffers;
    TakenOut(w, i);
    hide Inv, Queue, Apply, Bytes;
    var taken := Apply(w, TakeOut(i));
    StepIsQueueStep(w, TakeOut(i), k);
    StepIsQueueStep(taken, PutBack(i), k);
    NoneBefore(Queue(w, k));
    NoneBefore(Queue(WriteOut(w, i), k));
    hide WriteOut;
  }

  /** The buffer in the hand of WriteTo is the one that was first. */
  lemma TakenOut(w: World, i: nat)
    requires Inv(w) && Enabled(w, TakeOut(i))
    ensures var t := Apply(w, TakeOut(i));
      |t.streams| == |w.streams| && t.heap == w.heap && t.streams[i].hand == [w.streams[i].buffers[0]]
      && Enabled(t, PutBack(i))
  {}

  lemma NoneBefore(q: seq<byte>)
    ensures [] + q == q && q + [] == q
  {}

  /** A read gives the front of its stream's queue; it, recycling and opening leave every other queue as it is. */
  lemma OneStreamStep(w: World, a: Act, i: nat, k: nat)
    requires Inv(w) && Enabled(w, a) && (a.Open? || a.Recycle? || a.Read?) && (a.Open? || a.i == i)
    requires k < |w.streams| && k != i
    ensures Inv(Apply(w, a)) && k < |Apply(w, a).streams| && Queue(Apply(w, a), k) == Queue(w, k)
  {
    hide Inv, Queue, Apply;
    StepIsQueueStep(w, a, k);
    NothingElse(Queue(w, k), Queue(Apply(w, a), k));
  }

  lemma ReadQueues(w: World, i: nat, max: nat)
    requires Inv(w) && Enabled(w, Read(i, max))
    ensures Inv(Apply(w, Read(i, max))) && i < |Apply(w, Read(i, max)).streams|
    ensures var b := w.streams[i];
      if b.buffers == [] then Queue(w, i) == Queue(Apply(w, Read(i, max)), i) == []
      else
        && b.buffers[0].Ok() && Readable(w.heap, b.buffers)
        && Queue(w, i) == Bytes(w.heap, b.buffers[0].Take(ReadCount(b, max))) + Queue(Apply(w, Read(i, max)), i)
  {
    WaitingReadable(w, i);
    assert Waiting(w.streams[i]) == w.streams[i].buffers;
    assert w.streams[i].buffers == [] ==> Queue(w, i) == [];
    hide Inv, Queue, Apply, Content;
    StepIsQueueStep(w, Read(i, max), i);
    NothingElse(Queue(w, i), Queue(Apply(w, Read(i, max)), i));
  }

  lemma RecycledIsEmpty(w: World, i: nat)
    requires Inv(w) && Enabled(w, Recycle(i)) && w.streams[i].hand == []
    ensures Inv(Apply(w, Recycle(i))) && Queue(Apply(w, Recycle(i)), i) == []
  {
    InvKept(w, Recycle(i));
  }
}
