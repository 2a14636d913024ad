/** Items while others write: one goroutine for each shard fills a buffered channel under the shard's read lock, and
    the channels are fanned into one that the caller drains into a map. */
module Snapshot {
  import opened Arith
  import opened ShardMap
  import opened Wrappers

  datatype Phase<K, V> = Waiting | Filling(todo: map<K, V>) | Closed

  /** shards are the live maps; taken[i] records shard i at the instant it was locked; caps are the capacities of
      the channels, out the channel they are fanned into, and got what the caller has received. */
  datatype Walk<K, V> = Walk(shards: seq<map<K, V>>, phases: seq<Phase<K, V>>, chans: seq<seq<(K, V)>>, caps: seq<nat>,
                             out: seq<(K, V)>, got: seq<(K, V)>, taken: seq<map<K, V>>)

  datatype Act<K, V> =
    | Write(key: K, value: V)  // another goroutine sets a key
    | Delete(key: K)           // or removes one
    | Lock(i: nat)             // RLock and make the channel
    | Send(i: nat, key: K)     // one turn of the loop over the shard
    | Unlock(i: nat)           // RUnlock and close
    | Move(i: nat)             // fanIn, once every channel is made
    | Collect                  // the caller receives

  function Start<K, V>(shards: seq<map<K, V>>): Walk<K, V> {
    Walk(shards, seq(|shards|, _ => Waiting), seq(|shards|, _ => []), seq(|shards|, _ => 0), [], [],
         seq(|shards|, _ => map[]))
  }

  predicate Shape<K, V>(w: Walk<K, V>) {
    && |w.phases| == |w.shards| && |w.chans| == |w.shards| && |w.caps| == |w.shards| && |w.taken| == |w.shards|
    && |w.shards| > 0
  }

  function Sum(s: seq<int>): int {
    if s == [] then 0 else s[0] + Sum(s[1..])
  }

  /** Every channel is made, so that fanIn runs, and its goroutine for channel i has a pair to hand on. */
  predicate Fanning<K, V>(w: Walk<K, V>, i: nat)
    requires Shape(w)
  {
    i < |w.shards| && w.chans[i] != [] && forall j :: 0 <= j < |w.shards| ==> !w.phases[j].Waiting?
  }

  ghost predicate Enabled<K, V>(sharding: K -> uint32, w: Walk<K, V>, a: Act<K, V>)
    requires Shape(w)
  {
    match a
    case Write(key, _) => !w.phases[ShardOf(sharding, |w.shards|, key)].Filling?
    case Delete(key) => !w.phases[ShardOf(sharding, |w.shards|, key)].Filling?
    case Lock(i) => i < |w.shards| && w.phases[i].Waiting?
    case Send(i, key) =>
      i < |w.shards| && w.phases[i].Filling? && key in w.phases[i].todo && |w.chans[i]| < w.caps[i]
    case Unlock(i) => i < |w.shards| && w.phases[i].Filling? && |w.phases[i].todo| == 0
    case Move(i) => Fanning(w, i) && |w.out| < Sum(w.caps)
    case Collect => w.out != []
  }

  ghost function Apply<K, V>(sharding: K -> uint32, w: Walk<K, V>, a: Act<K, V>): (r: Walk<K, V>)
    requires Shape(w) && Enabled(sharding, w, a)
    ensures Shape(r) && |r.shards| == |w.shards|
  {
    match a
    case Write(key, value) =>
      var i := ShardOf(sharding, |w.shards|, key);
      w.(shards := w.shards[i := w.shards[i][key := value]])
    case Delete(key) =>
      var i := ShardOf(sharding, |w.shards|, key);
      w.(shards := w.shards[i := w.shards[i] - {key}])
    case Lock(i) =>
      w.(phases := w.phases[i := Filling(w.shards[i])], caps := w.caps[i := |w.shards[i]|],
         taken := w.taken[i := w.shards[i]])
    case Send(i, key) =>
      var todo := w.phases[i].todo;
      w.(phases := w.phases[i := Filling(todo - {key})], chans := w.chans[i := w.chans[i] + [(key, todo[key])]])
    case Unlock(i) => w.(phases := w.phases[i := Closed])
    case Move(i) => w.(out := w.out + [w.chans[i][0]], chans := w.chans[i := w.chans[i][1..]])
    case Collect => w.(out := w.out[1..], got := w.got + [w.out[0]])
  }

  /** What the other goroutines do to the live map: a write sets its key, a removal drops it, and no step of Items
      changes it. */
  lemma LiveMapAfter<K(!new), V(!new)>(sharding: K -> uint32, w: Walk<K, V>, a: Act<K, V>)
    requires Shape(w) && Homed(sharding, w.shards) && Enabled(sharding, w, a)
    ensures var u := Union(Apply(sharding, w, a).shards);
      match a
      case Write(key, value) => u == Union(w.shards)[key := value]
      case Delete(key) => u == Union(w.shards) - {key}
      case _ => u == Union(w.shards)
  {
    hide Homed, Union, ShardOf, Fanning, Sum;
    match a
    case Write(key, value) => UnionPut(sharding, w.shards, key, value);
    case Delete(key) => UnionDrop(sharding, w.shards, key);
    case _ =>
  }

  // ---------- What each shard's pairs are doing ----------

  function Only<K, V>(sharding: K -> uint32, n: nat, q: seq<(K, V)>, i: nat): seq<(K, V)>
    requires n > 0
  {
    if q == [] then []
    else (if ShardOf(sharding, n, q[0].0) == i then [q[0]] else []) + Only(sharding, n, q[1..], i)
  }

  /** The pairs of shard i that have been sent, in order, wherever they are now. */
  function Pipe<K, V>(sharding: K -> uint32, w: Walk<K, V>, i: nat): seq<(K, V)>
    requires Shape(w) && i < |w.shards|
  {
    Only(sharding, |w.shards|, w.got + w.out, i) + w.chans[i]
  }

  /** How often a map holds a pair. */
  function Holds<K, V(==)>(m: map<K, V>, p: (K, V)): nat {
    if p.0 in m && m[p.0] == p.1 then 1 else 0
  }

  /** The pairs of q and those of todo are together those of m. */
  ghost predicate Splits<K(!new), V(!new)>(q: seq<(K, V)>, todo: map<K, V>, m: map<K, V>) {
    |q| + |todo| == |m| && forall p :: multiset(q)[p] + Holds(todo, p) == Holds(m, p)
  }

  ghost predicate ShardInv<K(!new), V(!new)>(sharding: K -> uint32, w: Walk<K, V>, i: nat)
    requires Shape(w) && i < |w.shards|
  {
    && (forall k :: k in w.taken[i] ==> ShardOf(sharding, |w.shards|, k) == i)
    && (forall p :: p in w.chans[i] ==> ShardOf(sharding, |w.shards|, p.0) == i)
    && (match w.phases[i]
        case Waiting => Pipe(sharding, w, i) == [] && w.caps[i] == 0
        case Filling(todo) =>
          && w.shards[i] == w.taken[i] && w.caps[i] == |w.taken[i]|
          && Splits(Pipe(sharding, w, i), todo, w.taken[i])
        case Closed => Splits(Pipe(sharding, w, i), map[], w.taken[i]))
  }

  ghost predicate Inv<K(!new), V(!new)>(sharding: K -> uint32, w: Walk<K, V>) {
    Shape(w) && Homed(sharding, w.shards) && forall i :: 0 <= i < |w.shards| ==> ShardInv(sharding, w, i)
  }

  // ---------- Each step keeps it ----------

  lemma {:induction false} OnlyConcat<K(!new), V(!new)>(sharding: K -> uint32, n: nat, q: seq<(K, V)>, r: seq<(K, V)>,
                                                        i: nat)
    requires n > 0
    ensures Only(sharding, n, q + r, i) == Only(sharding, n, q, i) + Only(sharding, n, r, i)
  {
    if q == [] {
      assert q + r == r;
    } else {
      OnlyConcat(sharding, n, q[1..], r, i);
      assert (q + r)[1..] == q[1..] + r && (q + r)[0] == q[0];
      hide ShardOf;
      var first := if ShardOf(sharding, n, q[0].0) == i then [q[0]] else [];
      assert Only(sharding, n, q + r, i) == first + Only(sharding, n, q[1..] + r, i);
      assert Only(sharding, n, q, i) == first + Only(sharding, n, q[1..], i);
    }
  }

  lemma OnlyOne<K(!new), V(!new)>(sharding: K -> uint32, n: nat, p: (K, V), i: nat)
    requires n > 0
    ensures Only(sharding, n, [p], i) == if ShardOf(sharding, n, p.0) == i then [p] else []
  {
    assert [p][1..] == [];
  }

  /** Handing a pair on, from a shard's channel to out and from out to the caller, keeps every shard's sequence. */
  lemma MoveKeepsPipe<K(!new), V(!new)>(sharding: K -> uint32, w: Walk<K, V>, a: Act<K, V>, j: nat)
    requires Inv(sharding, w) && Enabled(sharding, w, a) && (a.Move? || a.Collect?) && j < |w.shards|
    ensures Pipe(sharding, Apply(sharding, w, a), j) == Pipe(sharding, w, j)
  {
    var r := Apply(sharding, w, a);
    if a.Collect? {
      assert r.got + r.out == w.got + w.out;
    } else {
      var p := w.chans[a.i][0];
      assert ShardInv(sharding, w, a.i) && p in w.chans[a.i];
      assert r.got + r.out == (w.got + w.out) + [p];
      OnlyConcat(sharding, |w.shards|, w.got + w.out, [p], j);
      OnlyOne(sharding, |w.shards|, p, j);
      var before := Only(sharding, |w.shards|, w.got + w.out, j);
      if j == a.i {
        assert w.chans[j] == [p] + r.chans[j];
        assert (before + [p]) + r.chans[j] == before + w.chans[j];
      } else {
        assert before + [] == before;
      }
    }
  }

  lemma SendSplits<K(!new), V(!new)>(q: seq<(K, V)>, todo: map<K, V>, m: map<K, V>, key: K)
    requires Splits(q, todo, m) && key in todo
    ensures Splits(q + [(key, todo[key])], todo - {key}, m)
    ensures key in m
  {
    var p := (key, todo[key]);
    assert Holds(todo, p) == 1;
    assert (todo - {key}).Keys == todo.Keys - {key};
    forall x
      ensures multiset(q + [p])[x] + Holds(todo - {key}, x) == multiset(q)[x] + Holds(todo, x)
    {}
  }

  lemma SendKeepsShard<K(!new), V(!new)>(sharding: K -> uint32, w: Walk<K, V>, i: nat, key: K)
    requires Inv(sharding, w) && Enabled(sharding, w, Send(i, key))
    ensures ShardInv(sharding, Apply(sharding, w, Send(i, key)), i)
  {
    var r := Apply(sharding, w, Send(i, key));
    var todo := w.phases[i].todo;
    var p := (key, todo[key]);
    assert ShardInv(sharding, w, i);
    SendSplits(Pipe(sharding, w, i), todo, w.taken[i], key);
    assert r.chans[i] == w.chans[i] + [p];
    var before := Only(sharding, |w.shards|, w.got + w.out, i);
    assert before + (w.chans[i] + [p]) == (before + w.chans[i]) + [p];
    hide Only, Splits;
  }

  lemma LockKeepsShard<K(!new), V(!new)>(sharding: K -> uint32, w: Walk<K, V>, i: nat)
    requires Inv(sharding, w) && Enabled(sharding, w, Lock(i))
    ensures ShardInv(sharding, Apply(sharding, w, Lock(i)), i)
  {
    var r := Apply(sharding, w, Lock(i));
    assert ShardInv(sharding, w, i);
    assert Pipe(sharding, r, i) == Pipe(sharding, w, i);
    assert Splits([], w.shards[i], w.shards[i]);
    hide Only, Pipe, Splits;
  }

  lemma UnlockKeepsShard<K(!new), V(!new)>(sharding: K -> uint32, w: Walk<K, V>, i: nat)
    requires Inv(sharding, w) && Enabled(sharding, w, Unlock(i))
    ensures ShardInv(sharding, Apply(sharding, w, Unlock(i)), i)
  {
    var r := Apply(sharding, w, Unlock(i));
    assert ShardInv(sharding, w, i);
    assert Pipe(sharding, r, i) == Pipe(sharding, w, i);
    assert w.phases[i].todo == map[];
    hide Only, Pipe, Splits;
  }

  /** A step elsewhere: the walk over shard j is as it was, and nobody wrote to it if it was locked. */
  lemma SameShard<K(!new), V(!new)>(sharding: K -> uint32, w: Walk<K, V>, r: Walk<K, V>, j: nat)
    requires Shape(w) && Shape(r) && |r.shards| == |w.shards| && j < |w.shards| && ShardInv(sharding, w, j)
    requires w.got == r.got && w.out == r.out && w.chans[j] == r.chans[j] && w.taken[j] == r.taken[j]
    requires w.phases[j] == r.phases[j] && w.caps[j] == r.caps[j]
    requires w.phases[j].Filling? ==> w.shards[j] == r.shards[j]
    ensures ShardInv(sharding, r, j)
  {
    assert Pipe(sharding, r, j) == Pipe(sharding, w, j);
    hide Only, Pipe, Splits;
  }

  lemma ShardInvKept<K(!new), V(!new)>(sharding: K -> uint32, w: Walk<K, V>, a: Act<K, V>, j: nat)
    requires Inv(sharding, w) && Enabled(sharding, w, a) && j < |w.shards|
    ensures ShardInv(sharding, Apply(sharding, w, a), j)
  {
    var r := Apply(sharding, w, a);
    assert ShardInv(sharding, w, j);
    if a.Send? && a.i == j {
      SendKeepsShard(sharding, w, a.i, a.key);
    } else if a.Lock? && a.i == j {
      LockKeepsShard(sharding, w, j);
    } else if a.Unlock? && a.i == j {
      UnlockKeepsShard(sharding, w, j);
    } else if a.Move? || a.Collect? {
      MoveKeepsPipe(sharding, w, a, j);
      assert forall p :: p in r.chans[j] ==> p in w.chans[j];
      hide Pipe, Splits;
    } else {
      SameShard(sharding, w, r, j) by { hide ShardInv; }
      hide *;
    }
  }

  lemma InvKept<K(!new), V(!new)>(sharding: K -> uint32, w: Walk<K, V>, a: Act<K, V>)
    requires Inv(sharding, w) && Enabled(sharding, w, a)
    ensures Inv(sharding, Apply(sharding, w, a))
  {
    forall j | 0 <= j < |w.shards|
      ensures ShardInv(sharding, Apply(sharding, w, a), j)
    {
      ShardInvKept(sharding, w, a, j);
    }
    hide ShardInv;
  }

  lemma StartInv<K(!new), V(!new)>(sharding: K -> uint32, shards: seq<map<K, V>>)
    requires Homed(sharding, shards)
    ensures Inv(sharding, Start(shards))
  {}

  // ---------- What Items returns ----------

  ghost predicate Done<K, V>(w: Walk<K, V>)
    requires Shape(w)
  {
    w.out == [] && forall i :: 0 <= i < |w.shards| ==> w.phases[i].Closed? && w.chans[i] == []
  }

  /** tmp after the loop of Items. */
  function Gathered<K, V>(q: seq<(K, V)>): map<K, V> {
    if q == [] then map[] else Gathered(q[..|q| - 1])[q[|q| - 1].0 := q[|q| - 1].1]
  }

  lemma {:induction false} GatheredFrom<K(!new), V(!new)>(q: seq<(K, V)>, k: K)
    ensures k in Gathered(q) ==> (k, Gathered(q)[k]) in q
    ensures k !in Gathered(q) ==> forall v :: (k, v) !in q
  {
    if q != [] {
      GatheredFrom(q[..|q| - 1], k);
      assert q == q[..|q| - 1] + [q[|q| - 1]];
    }
  }

  lemma {:induction false} OnlyHas<K(!new), V(!new)>(sharding: K -> uint32, n: nat, q: seq<(K, V)>, i: nat, p: (K, V))
    requires n > 0
    ensures multiset(Only(sharding, n, q, i))[p] == if ShardOf(sharding, n, p.0) == i then multiset(q)[p] else 0
  {
    if q != [] {
      OnlyHas(sharding, n, q[1..], i, p);
      assert q == [q[0]] + q[1..];
    }
  }

  /** Each pair is received as often as its shard held it when it was locked: once or not at all. */
  lemma ReceivedOnce<K(!new), V(!new)>(sharding: K -> uint32, w: Walk<K, V>, p: (K, V))
    requires Inv(sharding, w) && Done(w)
    ensures multiset(w.got)[p] == Holds(w.taken[ShardOf(sharding, |w.shards|, p.0)], p)
  {
    var i := ShardOf(sharding, |w.shards|, p.0);
    assert ShardInv(sharding, w, i);
    assert w.got + [] == w.got;
    assert Pipe(sharding, w, i) == Only(sharding, |w.shards|, w.got, i);
    OnlyHas(sharding, |w.shards|, w.got, i, p);
  }

  lemma TakenIsHomed<K(!new), V(!new)>(sharding: K -> uint32, w: Walk<K, V>)
    requires Inv(sharding, w)
    ensures Homed(sharding, w.taken)
  {
    forall i | 0 <= i < |w.taken|
      ensures forall k :: k in w.taken[i] ==> ShardOf(sharding, |w.taken|, k) == i
    {
      assert ShardInv(sharding, w, i);
    }
  }

  /** Items returns the union of what each shard held when it was locked. */
  lemma ItemsIsUnionOfSnapshots<K(!new), V(!new)>(sharding: K -> uint32, w: Walk<K, V>)
    requires Inv(sharding, w) && Done(w)
    ensures Homed(sharding, w.taken) && Gathered(w.got) == Union(w.taken)
  {
    TakenIsHomed(sharding, w);
    forall k
      ensures k in Gathered(w.got) <==> k in Union(w.taken)
      ensures k in Gathered(w.got) ==> Gathered(w.got)[k] == Union(w.taken)[k]
    {
      UnionLookup(sharding, w.taken, k);
      GatheredFrom(w.got, k);
      if k in Gathered(w.got) {
        ReceivedOnce(sharding, w, (k, Gathered(w.got)[k]));
      }
      if k in w.taken[ShardOf(sharding, |w.shards|, k)] {
        ReceivedOnce(sharding, w, (k, w.taken[ShardOf(sharding, |w.shards|, k)][k]));
      }
    }
    assert Gathered(w.got).Keys == Union(w.taken).Keys;
  }

  /** A goroutine that still has pairs to send always has room for one: no send ever blocks, even if nobody reads. */
  lemma SendsNeverBlock<K(!new), V(!new)>(sharding: K -> uint32, w: Walk<K, V>, i: nat, key: K)
    requires Inv(sharding, w) && i < |w.shards| && w.phases[i].Filling? && key in w.phases[i].todo
    ensures Enabled(sharding, w, Send(i, key))
  {
    assert ShardInv(sharding, w, i);
    assert |Pipe(sharding, w, i)| >= |w.chans[i]|;
    assert |w.phases[i].todo.Keys| > 0;
  }

  // ---------- Room in the channel that everything is fanned into ----------

  lemma {:induction false} SumUpdate(s: seq<int>, i: nat, x: int)
    requires i < |s|
    ensures Sum(s[i := x]) == Sum(s) - s[i] + x
  {
    if i == 0 {
      assert s[i := x][1..] == s[1..];
    } else {
      SumUpdate(s[1..], i - 1, x);
      assert s[i := x][1..] == s[1..][i - 1 := x];
    }
  }

  lemma {:induction false} SumZeros(s: seq<int>)
    requires forall i :: 0 <= i < |s| ==> s[i] == 0
    ensures Sum(s) == 0
  {
    if s != [] {
      SumZeros(s[1..]);
    }
  }

  /** What the channels still owe: sent and not yet moved, or not yet sent. */
  function Owed<K, V>(w: Walk<K, V>): (s: seq<int>)
    requires Shape(w)
    ensures |s| == |w.shards|
  {
    seq(|w.shards|, i requires 0 <= i < |w.shards| =>
      |w.chans[i]| + if w.phases[i].Filling? then |w.phases[i].todo| else 0)
  }

  ghost predicate Balanced<K, V>(w: Walk<K, V>)
    requires Shape(w)
  {
    |w.got| + |w.out| + Sum(Owed(w)) == Sum(w.caps)
  }

  /** A step of one shard that leaves everything else. */
  lemma BalancedAt<K(!new), V(!new)>(w: Walk<K, V>, r: Walk<K, V>, i: nat)
    requires Shape(w) && Shape(r) && |r.shards| == |w.shards| && i < |w.shards| && Balanced(w)
    requires r.phases == w.phases[i := r.phases[i]] && r.chans == w.chans[i := r.chans[i]]
    requires r.caps == w.caps[i := r.caps[i]]
    requires |r.got| + |r.out| + Owed(r)[i] - r.caps[i] == |w.got| + |w.out| + Owed(w)[i] - w.caps[i]
    ensures Balanced(r)
  {
    assert Owed(r) == Owed(w)[i := Owed(r)[i]];
    SumUpdate(Owed(w), i, Owed(r)[i]);
    SumUpdate(w.caps, i, r.caps[i]);
  }

  lemma BalancedKept<K(!new), V(!new)>(sharding: K -> uint32, w: Walk<K, V>, a: Act<K, V>)
    requires Inv(sharding, w) && Balanced(w) && Enabled(sharding, w, a)
    ensures Balanced(Apply(sharding, w, a))
  {
    var r := Apply(sharding, w, a);
    if a.Write? || a.Delete? || a.Collect? {
      assert Owed(r) == Owed(w);
    } else {
      assert ShardInv(sharding, w, a.i);
      assert w.phases[a.i].Waiting? ==> w.chans[a.i] == [];
      assert a.Send? ==> (w.phases[a.i].todo - {a.key}).Keys == w.phases[a.i].todo.Keys - {a.key};
      hide ShardInv, Inv, Pipe, Only, Balanced;
      BalancedAt(w, r, a.i);
    }
  }

  lemma {:induction false} SumBound(s: seq<int>, i: nat)
    requires i < |s| && forall j :: 0 <= j < |s| ==> s[j] >= 0
    ensures Sum(s) >= s[i]
  {
    if i > 0 {
      SumBound(s[1..], i - 1);
    } else if |s| > 1 {
      SumBound(s[1..], 0);
    }
  }

  /** The channel of IterBuffered has room for every pair: handing one on never blocks, even if nobody reads. */
  lemma FanInNeverBlocks<K(!new), V(!new)>(sharding: K -> uint32, w: Walk<K, V>, i: nat)
    requires Inv(sharding, w) && Balanced(w) && Fanning(w, i)
    ensures Enabled(sharding, w, Move(i))
  {
    SumBound(Owed(w), i);
  }

  // ---------- Whole calls ----------

  /** The state after a run of steps, if each was possible. */
  ghost function After<K, V>(sharding: K -> uint32, shards: seq<map<K, V>>, acts: seq<Act<K, V>>)
    : (r: Option<Walk<K, V>>)
    requires |shards| > 0
    ensures r.Some? ==> Shape(r.value) && |r.value.shards| == |shards|
  {
    if acts == [] then Some(Start(shards))
    else
      var w := After(sharding, shards, acts[..|acts| - 1]);
      if w.Some? && Enabled(sharding, w.value, acts[|acts| - 1]) then Some(Apply(sharding, w.value, acts[|acts| - 1]))
      else None
  }

  lemma {:induction false} ReachableInv<K(!new), V(!new)>(sharding: K -> uint32, shards: seq<map<K, V>>,
                                                          acts: seq<Act<K, V>>)
    requires Homed(sharding, shards) && After(sharding, shards, acts).Some?
    ensures Inv(sharding, After(sharding, shards, acts).value) && Balanced(After(sharding, shards, acts).value)
  {
    if acts == [] {
      StartInv(sharding, shards);
      SumZeros(Owed(Start(shards)));
      SumZeros(Start(shards).caps);
    } else {
      ReachableInv(sharding, shards, acts[..|acts| - 1]);
      var w := After(sharding, shards, acts[..|acts| - 1]).value;
      InvKept(sharding, w, acts[|acts| - 1]);
      BalancedKept(sharding, w, acts[|acts| - 1]);
      hide Inv, Balanced, Apply, Enabled;
    }
  }

  /** What was recorded for a shard is what the shard held at some moment of the call. */
  lemma {:induction false} TakenAtAMoment<K(!new), V(!new)>(sharding: K -> uint32, shards: seq<map<K, V>>,
                                                            acts: seq<Act<K, V>>, i: nat)
    returns (n: nat)
    requires |shards| > 0 && i < |shards| && After(sharding, shards, acts).Some?
    requires !After(sharding, shards, acts).value.phases[i].Waiting?
    ensures n <= |acts| && After(sharding, shards, acts[..n]).Some?
    ensures After(sharding, shards, acts[..n]).value.shards[i] == After(sharding, shards, acts).value.taken[i]
  {
    var before := acts[..|acts| - 1];
    var w := After(sharding, shards, before).value;
    if acts[|acts| - 1] == Lock(i) {
      n := |acts|;
      assert acts[..n] == acts;
    } else {
      n := TakenAtAMoment(sharding, shards, before, i);
      assert before[..n] == acts[..n];
    }
  }

  /** With any other goroutines writing meanwhile: for every shard there is a moment of the call at which the shard
      held, under the keys that belong to it, exactly what Items returns for them; and each key is received at most
      once. */
  lemma ItemsPerShard<K(!new), V(!new)>(sharding: K -> uint32, shards: seq<map<K, V>>, acts: seq<Act<K, V>>, i: nat)
    returns (n: nat)
    requires Homed(sharding, shards) && i < |shards| && After(sharding, shards, acts).Some?
    requires Done(After(sharding, shards, acts).value)
    ensures n <= |acts| && After(sharding, shards, acts[..n]).Some?
    ensures var held := After(sharding, shards, acts[..n]).value.shards[i];
      var items := Gathered(After(sharding, shards, acts).value.got);
      forall k :: ShardOf(sharding, |shards|, k) == i ==>
        && (k in items <==> k in held)
        && (k in items ==> items[k] == held[k])
  {
    hide Inv, Apply;
    var w := After(sharding, shards, acts).value;
    ReachableInv(sharding, shards, acts);
    n := TakenAtAMoment(sharding, shards, acts, i);
    ItemsIsUnionOfSnapshots(sharding, w);
    forall k | ShardOf(sharding, |shards|, k) == i
      ensures k in Union(w.taken) <==> k in w.taken[i]
      ensures k in w.taken[i] ==> Union(w.taken)[k] == w.taken[i][k]
    {
      UnionLookup(sharding, w.taken, k);
    }
  }

  lemma {:induction false} TwiceInSeq<T>(q: seq<T>, i: nat, j: nat)
    requires i < j < |q| && q[i] == q[j]
    ensures multiset(q)[q[i]] >= 2
  {
    assert q == q[..i] + [q[i]] + q[i + 1..j] + [q[j]] + q[j + 1..];
  }

  /** No key is received twice. */
  lemma EachKeyOnce<K(!new), V(!new)>(sharding: K -> uint32, w: Walk<K, V>, i: nat, j: nat)
    requires Inv(sharding, w) && Done(w) && i < j < |w.got|
    ensures w.got[i].0 != w.got[j].0
  {
    ReceivedOnce(sharding, w, w.got[i]);
    ReceivedOnce(sharding, w, w.got[j]);
    if w.got[i].0 == w.got[j].0 {
      assert w.got[i].1 == w.got[j].1;
      TwiceInSeq(w.got, i, j);
    }
  }

  // ---------- When Items is the map at one moment ----------

  /** Others set and remove keys of a given set only. */
  ghost predicate WritesIn<K(!new), V(!new)>(acts: seq<Act<K, V>>, keys: set<K>) {
    forall a <- acts :: a.Write? || a.Delete? ==> a.key in keys
  }

  ghost predicate OneShard<K(!new)>(sharding: K -> uint32, n: nat, keys: set<K>)
    requires n > 0
  {
    forall x, y :: x in keys && y in keys ==> ShardOf(sharding, n, x) == ShardOf(sharding, n, y)
  }

  /** A completed call of Items over the run acts. */
  ghost predicate Completed<K(!new), V(!new)>(sharding: K -> uint32, shards: seq<map<K, V>>, acts: seq<Act<K, V>>) {
    |shards| > 0 && After(sharding, shards, acts).Some? && Done(After(sharding, shards, acts).value)
  }

  /** Items returned what the whole map was at some moment of the call. */
  ghost predicate OneMoment<K(!new), V(!new)>(sharding: K -> uint32, shards: seq<map<K, V>>, acts: seq<Act<K, V>>)
    requires Completed(sharding, shards, acts)
  {
    exists m :: 0 <= m <= |acts| && After(sharding, shards, acts[..m]).Some?
      && Gathered(After(sharding, shards, acts).value.got) == Union(After(sharding, shards, acts[..m]).value.shards)
  }

  /** Whatever the map holds, and however others set and remove the given keys meanwhile. */
  ghost predicate AlwaysOneMoment<K(!new), V(!new)>(sharding: K -> uint32, n: nat, keys: set<K>)
    requires n > 0
  {
    forall shards: seq<map<K, V>>, acts: seq<Act<K, V>> ::
      |shards| == n && Homed(sharding, shards) && Completed(sharding, shards, acts) && WritesIn(acts, keys) ==>
        OneMoment(sharding, shards, acts)
  }

  /** A shard that nobody writes to stays as it is, and is recorded as it is. */
  lemma {:induction false} UnwrittenStays<K(!new), V(!new)>(sharding: K -> uint32, shards: seq<map<K, V>>,
                                                            acts: seq<Act<K, V>>, i: nat)
    requires |shards| > 0 && i < |shards| && After(sharding, shards, acts).Some?
    requires forall a <- acts :: a.Write? || a.Delete? ==> ShardOf(sharding, |shards|, a.key) != i
    ensures var w := After(sharding, shards, acts).value;
      w.shards[i] == shards[i] && (w.phases[i].Waiting? || w.taken[i] == shards[i])
    decreases |acts|
  {
    if acts != [] {
      var before, a := acts[..|acts| - 1], acts[|acts| - 1];
      assert a in acts && forall b <- before :: b in acts;
      UnwrittenStays(sharding, shards, before, i);
    }
  }

  lemma OneShardIsEnough<K(!new), V(!new)>(sharding: K -> uint32, shards: seq<map<K, V>>, acts: seq<Act<K, V>>,
                                           keys: set<K>)
    requires Homed(sharding, shards) && Completed(sharding, shards, acts) && WritesIn(acts, keys)
    requires OneShard(sharding, |shards|, keys)
    ensures OneMoment(sharding, shards, acts)
  {
    hide Apply, Enabled, Inv, After, Union, Gathered;
    var j: nat := if key :| key in keys then ShardOf(sharding, |shards|, key) else 0;
    var w := After(sharding, shards, acts).value;
    var m := TakenAtAMoment(sharding, shards, acts, j);
    var u := After(sharding, shards, acts[..m]).value;
    assert forall b <- acts[..m] :: b in acts;
    forall i | 0 <= i < |shards|
      ensures u.shards[i] == w.taken[i]
    {
      if i != j {
        UnwrittenStays(sharding, shards, acts, i);
        UnwrittenStays(sharding, shards, acts[..m], i);
      }
    }
    assert u.shards == w.taken;
    ReachableInv(sharding, shards, acts);
    ItemsIsUnionOfSnapshots(sharding, w);
  }

  // ---------- And when it is not ----------

  function Empties<K, V>(n: nat): (s: seq<map<K, V>>)
    ensures |s| == n && forall i :: 0 <= i < n ==> s[i] == map[]
  {
    seq(n, _ => map[])
  }

  /** The first m shards, but for shard j, have been walked. */
  function Walked<K, V>(n: nat, m: nat, j: nat): (s: seq<Phase<K, V>>)
    ensures |s| == n && forall k :: 0 <= k < n ==> s[k] == if k < m && k != j then Closed else Waiting
  {
    seq(n, k requires 0 <= k < n => if k < m && k != j then Closed else Waiting)
  }

  /** A run that starts with an empty map and leads to w, in which only the given keys are written and the map is
      never m. */
  ghost predicate Leads<K(!new), V(!new)>(sharding: K -> uint32, n: nat, keys: set<K>, m: map<K, V>,
                                         acts: seq<Act<K, V>>, w: Walk<K, V>)
    requires n > 0
  {
    && After(sharding, Empties(n), acts) == Some(w) && WritesIn(acts, keys)
    && forall k :: 0 <= k <= |acts| && After(sharding, Empties(n), acts[..k]).Some? ==>
         Union(After(sharding, Empties(n), acts[..k]).value.shards) != m
  }

  lemma AfterOneMore<K(!new), V(!new)>(sharding: K -> uint32, shards: seq<map<K, V>>, acts: seq<Act<K, V>>,
                                       a: Act<K, V>)
    requires |shards| > 0 && After(sharding, shards, acts).Some?
    requires Enabled(sharding, After(sharding, shards, acts).value, a)
    ensures After(sharding, shards, acts + [a]) == Some(Apply(sharding, After(sharding, shards, acts).value, a))
  {
    hide Apply, Enabled;
    assert (acts + [a])[..|acts|] == acts;
  }

  lemma LeadsOn<K(!new), V(!new)>(sharding: K -> uint32, n: nat, keys: set<K>, m: map<K, V>, acts: seq<Act<K, V>>,
                                  w: Walk<K, V>, a: Act<K, V>)
    returns (more: seq<Act<K, V>>, r: Walk<K, V>)
    requires n > 0 && Leads(sharding, n, keys, m, acts, w)
    requires Shape(w) && Enabled(sharding, w, a)
    requires (a.Write? || a.Delete? ==> a.key in keys) && Union(Apply(sharding, w, a).shards) != m
    ensures more == acts + [a] && r == Apply(sharding, w, a) && Leads(sharding, n, keys, m, more, r)
  {
    hide Apply, Enabled, Union, After;
    more, r := acts + [a], Apply(sharding, w, a);
    AfterOneMore(sharding, Empties(n), acts, a);
    forall k | 0 <= k <= |more| && After(sharding, Empties(n), more[..k]).Some?
      ensures Union(After(sharding, Empties(n), more[..k]).value.shards) != m
    {
      if k <= |acts| {
        assert more[..k] == acts[..k];
      } else {
        assert more[..k] == more;
      }
    }
  }

  lemma UnionOfEmpties<K(!new), V(!new)>(s: seq<map<K, V>>)
    requires forall i :: 0 <= i < |s| ==> s[i] == map[]
    ensures Union(s) == map[]
  {
    forall k
      ensures k !in Union(s)
    {
      UnionHas(s, k);
    }
  }

  /** The walk when the first k shards, but for j, have been walked empty. */
  function AfterWalk<K, V>(n: nat, k: nat, j: nat): Walk<K, V> {
    Walk(Empties(n), Walked(n, k, j), seq(n, _ => []), seq(n, _ => 0), [], [], Empties(n))
  }

  lemma WalkOne<K(!new), V(!new)>(sharding: K -> uint32, n: nat, keys: set<K>, m: map<K, V>, j: nat, k: nat,
                                  acts: seq<Act<K, V>>)
    returns (more: seq<Act<K, V>>)
    requires k < n && k != j && m != map[] && Leads(sharding, n, keys, m, acts, AfterWalk(n, k, j))
    ensures Leads(sharding, n, keys, m, more, AfterWalk(n, k + 1, j))
  {
    hide Leads, Union;
    var w := AfterWalk<K, V>(n, k, j);
    UnionOfEmpties(w.shards);
    more, w := LeadsOn(sharding, n, keys, m, acts, w, Lock(k));
    more, w := LeadsOn(sharding, n, keys, m, more, w, Unlock(k));
    var r := AfterWalk<K, V>(n, k + 1, j);
    assert w.phases == r.phases && w.caps == r.caps && w.taken == r.taken;
  }

  lemma StartsTheWalk<K(!new), V(!new)>(sharding: K -> uint32, n: nat, keys: set<K>, m: map<K, V>, j: nat)
    requires n > 0 && m != map[]
    ensures Leads(sharding, n, keys, m, [], AfterWalk(n, 0, j))
  {
    var w, start := AfterWalk<K, V>(n, 0, j), Start<K, V>(Empties(n));
    assert w.phases == start.phases && w.taken == start.taken;
    UnionOfEmpties(w.shards);
    var none: seq<Act<K, V>> := [];
    assert none[..0] == none;
    hide Union;
  }

  /** Every shard but j is walked while it is empty. */
  lemma {:induction false} WalkAllBut<K(!new), V(!new)>(sharding: K -> uint32, n: nat, keys: set<K>, m: map<K, V>,
                                                        j: nat, k: nat)
    returns (acts: seq<Act<K, V>>)
    requires n > 0 && j < n && k <= n && m != map[]
    ensures Leads(sharding, n, keys, m, acts, AfterWalk(n, k, j))
  {
    hide Leads;
    if k == 0 {
      acts := [];
      StartsTheWalk(sharding, n, keys, m, j);
    } else {
      acts := WalkAllBut(sharding, n, keys, m, j, k - 1);
      if k - 1 == j {
        assert Walked<K, V>(n, k - 1, j) == Walked<K, V>(n, k, j);
      } else {
        acts := WalkOne(sharding, n, keys, m, j, k - 1, acts);
      }
    }
  }

  lemma UnionWithKey<K(!new), V(!new)>(s: seq<map<K, V>>, i: nat, x: K, m: map<K, V>)
    requires i < |s| && x in s[i] && x !in m
    ensures Union(s) != m
  {
    UnionHas(s, x);
  }

  /** Then x is set, whose shard has been walked, and y, whose shard has not. */
  lemma BothWritten<K(!new), V(!new)>(sharding: K -> uint32, n: nat, keys: set<K>, x: K, y: K, v: V)
    returns (acts: seq<Act<K, V>>, w: Walk<K, V>)
    requires n > 0 && x in keys && y in keys && ShardOf(sharding, n, x) != ShardOf(sharding, n, y)
    ensures var i, j := ShardOf(sharding, n, x), ShardOf(sharding, n, y);
      && Leads(sharding, n, keys, map[y := v], acts, w)
      && w == AfterWalk(n, n, j).(shards := w.shards)
      && |w.shards| == n && w.shards[j] == map[y := v] && x in w.shards[i]
  {
    hide Leads, Union;
    var i, j := ShardOf(sharding, n, x), ShardOf(sharding, n, y);
    assert y in map[y := v];
    acts := WalkAllBut(sharding, n, keys, map[y := v], j, n);
    w := AfterWalk(n, n, j);
    UnionWithKey(Apply(sharding, w, Write(x, v)).shards, i, x, map[y := v]);
    acts, w := LeadsOn(sharding, n, keys, map[y := v], acts, w, Write(x, v));
    UnionWithKey(Apply(sharding, w, Write(y, v)).shards, i, x, map[y := v]);
    acts, w := LeadsOn(sharding, n, keys, map[y := v], acts, w, Write(y, v));
  }

  /** Then shard j is walked, which holds y alone. */
  lemma LastShardSent<K(!new), V(!new)>(sharding: K -> uint32, n: nat, keys: set<K>, x: K, y: K, v: V)
    returns (acts: seq<Act<K, V>>, w: Walk<K, V>)
    requires n > 0 && x in keys && y in keys && ShardOf(sharding, n, x) != ShardOf(sharding, n, y)
    ensures var j := ShardOf(sharding, n, y);
      && Leads(sharding, n, keys, map[y := v], acts, w) && Shape(w) && |w.shards| == n
      && x in w.shards[ShardOf(sharding, n, x)]
      && (forall k :: 0 <= k < n ==> w.phases[k].Closed? && w.chans[k] == if k == j then [(y, v)] else [])
      && w.out == [] && w.got == [] && Sum(w.caps) == 1
  {
    hide Leads, Union;
    var j := ShardOf(sharding, n, y);
    var m := map[y := v];
    acts, w := BothWritten(sharding, n, keys, x, y, v);
    UnionWithKey(w.shards, ShardOf(sharding, n, x), x, m);
    SumZeros(w.caps);
    SumUpdate(w.caps, j, 1);
    acts, w := LeadsOn(sharding, n, keys, m, acts, w, Lock(j));
    acts, w := LeadsOn(sharding, n, keys, m, acts, w, Send(j, y));
    assert m - {y} == map[];
    acts, w := LeadsOn(sharding, n, keys, m, acts, w, Unlock(j));
  }

  /** The shards are not locked together: starting empty, with key x set and then key y set while Items walks, it can
      return y alone, which the map never held. */
  lemma TornAcrossShards<K(!new), V(!new)>(sharding: K -> uint32, n: nat, keys: set<K>, x: K, y: K, v: V)
    returns (acts: seq<Act<K, V>>, w: Walk<K, V>)
    requires n > 0 && x in keys && y in keys && ShardOf(sharding, n, x) != ShardOf(sharding, n, y)
    ensures Leads(sharding, n, keys, map[y := v], acts, w) && Shape(w) && Done(w) && Gathered(w.got) == map[y := v]
  {
    hide Leads, Union;
    var m := map[y := v];
    acts, w := LastShardSent(sharding, n, keys, x, y, v);
    UnionWithKey(w.shards, ShardOf(sharding, n, x), x, m);
    acts, w := LeadsOn(sharding, n, keys, m, acts, w, Move(ShardOf(sharding, n, y)));
    acts, w := LeadsOn(sharding, n, keys, m, acts, w, Collect);
    assert w.got[..0] == [];
  }

  /** Items is always the map at one moment of the call if and only if the keys that others may write meanwhile all
      live in one shard. */
  lemma ItemsIsAMomentIff<K(!new), V(!new)>(sharding: K -> uint32, n: nat, keys: set<K>, v: V)
    requires n > 0
    ensures AlwaysOneMoment<K, V>(sharding, n, keys) <==> OneShard(sharding, n, keys)
  {
    hide Union, Gathered, After, Done;
    if OneShard(sharding, n, keys) {
      forall shards: seq<map<K, V>>, acts: seq<Act<K, V>>
        | |shards| == n && Homed(sharding, shards) && Completed(sharding, shards, acts) && WritesIn(acts, keys)
        ensures OneMoment(sharding, shards, acts)
      {
        OneShardIsEnough(sharding, shards, acts, keys);
      }
    } else {
      var x, y :| x in keys && y in keys && ShardOf(sharding, n, x) != ShardOf(sharding, n, y);
      var acts, w := TornAcrossShards(sharding, n, keys, x, y, v);
      assert Homed(sharding, Empties<K, V>(n)) && !OneMoment(sharding, Empties(n), acts);
    }
  }
}
