/** Count while others write: the shards are locked one after the other, and each length is read at a moment of its
    own. */
module Counting {
  import opened Arith
  import opened ShardMap
  import opened Wrappers
  import S = Snapshot

  /** shards are the live maps and count the local variable of Count; sizes records the lengths that were added. */
  datatype Tally<K, V> = Tally(shards: seq<map<K, V>>, count: nat, sizes: seq<nat>)

  datatype Act<K, V> =
    | Write(key: K, value: V)  // another goroutine sets a key
    | Delete(key: K)           // or removes one
    | Add                      // one turn of the loop of Count, under the lock of the next shard

  function Start<K, V>(shards: seq<map<K, V>>): Tally<K, V> {
    Tally(shards, 0, [])
  }

  predicate Enabled<K, V>(t: Tally<K, V>, a: Act<K, V>) {
    |t.shards| > 0 && (a.Add? ==> |t.sizes| < |t.shards|)
  }

  function Apply<K, V>(sharding: K -> uint32, t: Tally<K, V>, a: Act<K, V>): (r: Tally<K, V>)
    requires Enabled(t, a)
    ensures |r.shards| == |t.shards|
  {
    match a
    case Write(key, value) =>
      var i := ShardOf(sharding, |t.shards|, key);
      t.(shards := t.shards[i := t.shards[i][key := value]])
    case Delete(key) =>
      var i := ShardOf(sharding, |t.shards|, key);
      t.(shards := t.shards[i := t.shards[i] - {key}])
    case Add =>
      var n := |t.shards[|t.sizes|]|;
      t.(count := t.count + n, sizes := t.sizes + [n])
  }

  /** A write sets its key in the live map, a removal drops it, and a turn of Count changes nothing in it. */
  lemma LiveMapAfter<K(!new), V(!new)>(sharding: K -> uint32, t: Tally<K, V>, a: Act<K, V>)
    requires Homed(sharding, t.shards) && Enabled(t, a)
    ensures var u := Union(Apply(sharding, t, a).shards);
      match a
      case Write(key, value) => u == Union(t.shards)[key := value]
      case Delete(key) => u == Union(t.shards) - {key}
      case Add => u == Union(t.shards)
  {
    hide Homed, Union, ShardOf;
    match a
    case Write(key, value) => UnionPut(sharding, t.shards, key, value);
    case Delete(key) => UnionDrop(sharding, t.shards, key);
    case Add =>
  }

  /** The state after a run, if every step of it was possible. */
  ghost function After<K, V>(sharding: K -> uint32, shards: seq<map<K, V>>, acts: seq<Act<K, V>>)
    : (r: Option<Tally<K, V>>)
    ensures r.Some? ==> |r.value.shards| == |shards|
    decreases |acts|
  {
    if acts == [] then Some(Start(shards))
    else
      var t := After(sharding, shards, acts[..|acts| - 1]);
      if t.Some? && Enabled(t.value, acts[|acts| - 1]) then Some(Apply(sharding, t.value, acts[|acts| - 1])) else None
  }

  lemma AfterLast<K(!new), V(!new)>(sharding: K -> uint32, shards: seq<map<K, V>>, acts: seq<Act<K, V>>, a: Act<K, V>)
    ensures After(sharding, shards, acts + [a]) == (
      var t := After(sharding, shards, acts);
      if t.Some? && Enabled(t.value, a) then Some(Apply(sharding, t.value, a)) else None)
  {
    assert (acts + [a])[..|acts|] == acts;
  }

  // ---------- What has been counted ----------

  /** After m steps shard i held n keys. */
  ghost predicate HeldAt<K, V>(sharding: K -> uint32, shards: seq<map<K, V>>, acts: seq<Act<K, V>>, m: nat, i: nat,
                               n: nat) {
    && m <= |acts| && i < |shards| && After(sharding, shards, acts[..m]).Some?
    && |After(sharding, shards, acts[..m]).value.shards[i]| == n
  }

  lemma HeldLater<K(!new), V(!new)>(sharding: K -> uint32, shards: seq<map<K, V>>, acts: seq<Act<K, V>>, a: Act<K, V>,
                                    m: nat, i: nat, n: nat)
    requires HeldAt(sharding, shards, acts, m, i, n)
    ensures HeldAt(sharding, shards, acts + [a], m, i, n)
  {
    hide After;
    assert (acts + [a])[..m] == acts[..m];
  }

  lemma {:induction false} SumSnoc(s: seq<nat>, n: nat)
    ensures S.Sum(s + [n]) == S.Sum(s) + n
  {
    if s == [] {
      assert s + [n] == [n] && [n][1..] == [];
    } else {
      SumSnoc(s[1..], n);
      assert (s + [n])[1..] == s[1..] + [n];
    }
  }

  lemma StaysHomed<K(!new), V(!new)>(sharding: K -> uint32, t: Tally<K, V>, a: Act<K, V>)
    requires Homed(sharding, t.shards) && Enabled(t, a)
    ensures Homed(sharding, Apply(sharding, t, a).shards)
  {}

  /** The sizes are those of the shards at the given moments. */
  ghost predicate SizesAt<K, V>(sharding: K -> uint32, shards: seq<map<K, V>>, acts: seq<Act<K, V>>, sizes: seq<nat>,
                                moments: seq<nat>) {
    |moments| == |sizes|
    && (forall i :: 0 <= i < |sizes| ==> HeldAt(sharding, shards, acts, moments[i], i, sizes[i]))
  }

  lemma MoreSizes<K(!new), V(!new)>(sharding: K -> uint32, shards: seq<map<K, V>>, acts: seq<Act<K, V>>,
                                    a: Act<K, V>, sizes: seq<nat>, moments: seq<nat>)
    requires SizesAt(sharding, shards, acts, sizes, moments)
    ensures SizesAt(sharding, shards, acts + [a], sizes, moments)
  {
    forall i | 0 <= i < |sizes|
      ensures HeldAt(sharding, shards, acts + [a], moments[i], i, sizes[i])
    {
      HeldLater(sharding, shards, acts, a, moments[i], i, sizes[i]);
    }
    hide HeldAt;
  }

  lemma AddedNow<K(!new), V(!new)>(sharding: K -> uint32, shards: seq<map<K, V>>, acts: seq<Act<K, V>>,
                                   sizes: seq<nat>, moments: seq<nat>, n: nat)
    requires SizesAt(sharding, shards, acts + [Add], sizes, moments) && After(sharding, shards, acts).Some?
    requires |sizes| < |shards| && n == |After(sharding, shards, acts).value.shards[|sizes|]|
    ensures SizesAt(sharding, shards, acts + [Add], sizes + [n], moments + [|acts|])
  {
    assert (acts + [Add])[..|acts|] == acts;
    hide After;
  }

  /** Count adds up the lengths of the shards, each at a moment of the call, one after the other in the order of the
      shards. */
  lemma {:induction false} CountPerShard<K(!new), V(!new)>(sharding: K -> uint32, shards: seq<map<K, V>>,
                                                            acts: seq<Act<K, V>>)
    returns (moments: seq<nat>)
    requires After(sharding, shards, acts).Some?
    ensures var t := After(sharding, shards, acts).value;
      && SizesAt(sharding, shards, acts, t.sizes, moments)
      && (forall i, j :: 0 <= i < j < |moments| ==> moments[i] < moments[j])
      && (forall i :: 0 <= i < |moments| ==> moments[i] < |acts|)
      && t.count == S.Sum(t.sizes)
    decreases |acts|
  {
    moments := [];
    if acts != [] {
      var before, a := acts[..|acts| - 1], acts[|acts| - 1];
      assert acts == before + [a];
      AfterLast(sharding, shards, before, a);
      moments := CountPerShard(sharding, shards, before);
      var t := After(sharding, shards, before).value;
      MoreSizes(sharding, shards, before, a, t.sizes, moments);
      hide SizesAt, After;
      if a.Add? {
        var n := |t.shards[|t.sizes|]|;
        SumSnoc(t.sizes, n);
        AddedNow(sharding, shards, before, t.sizes, moments, n);
        moments := moments + [|before|];
      }
    }
  }

  // ---------- When that is the size of the map at one moment ----------

  ghost predicate WritesIn<K(!new), V(!new)>(acts: seq<Act<K, V>>, keys: set<K>) {
    forall a <- acts :: a.Write? || a.Delete? ==> a.key in keys
  }

  /** A completed call of Count. */
  ghost predicate Completed<K(!new), V(!new)>(sharding: K -> uint32, shards: seq<map<K, V>>, acts: seq<Act<K, V>>) {
    After(sharding, shards, acts).Some? && |After(sharding, shards, acts).value.sizes| == |shards|
  }

  /** Count returned the size of the whole map at some moment of the call. */
  ghost predicate OneMoment<K(!new), V(!new)>(sharding: K -> uint32, shards: seq<map<K, V>>, acts: seq<Act<K, V>>)
    requires Completed(sharding, shards, acts)
  {
    exists m :: 0 <= m <= |acts| && After(sharding, shards, acts[..m]).Some?
      && After(sharding, shards, acts).value.count == |Union(After(sharding, shards, acts[..m]).value.shards)|
  }

  ghost predicate AlwaysOneMoment<K(!new), V(!new)>(sharding: K -> uint32, n: nat, keys: set<K>)
  {
    forall shards: seq<map<K, V>>, acts: seq<Act<K, V>> ::
      |shards| == n && Homed(sharding, shards) && Completed(sharding, shards, acts) && WritesIn(acts, keys) ==>
        OneMoment(sharding, shards, acts)
  }

  lemma {:induction false} RunHomed<K(!new), V(!new)>(sharding: K -> uint32, shards: seq<map<K, V>>,
                                                       acts: seq<Act<K, V>>)
    requires Homed(sharding, shards) && After(sharding, shards, acts).Some?
    ensures Homed(sharding, After(sharding, shards, acts).value.shards)
    decreases |acts|
  {
    hide Homed, Apply, Enabled;
    if acts != [] {
      var before := acts[..|acts| - 1];
      RunHomed(sharding, shards, before);
      StaysHomed(sharding, After(sharding, shards, before).value, acts[|acts| - 1]);
    }
  }

  lemma HomedSize<K(!new), V(!new)>(sharding: K -> uint32, t: seq<map<K, V>>)
    requires Homed(sharding, t)
    ensures |Union(t)| == Sizes(t)
  {
    forall i, j, k | 0 <= i < |t| && 0 <= j < |t| && k in t[i] && k in t[j]
      ensures i == j
    {
      assert ShardOf(sharding, |t|, k) == i;
    }
    SizesAddUp(t);
  }

  lemma {:induction false} SumIsSizes<K(!new), V(!new)>(sizes: seq<nat>, t: seq<map<K, V>>)
    requires |sizes| == |t| && forall i :: 0 <= i < |t| ==> sizes[i] == |t[i]|
    ensures S.Sum(sizes) == Sizes(t)
  {
    if t != [] {
      SumIsSizes(sizes[1..], t[1..]);
    }
  }

  lemma {:induction false} UnwrittenStays<K(!new), V(!new)>(sharding: K -> uint32, shards: seq<map<K, V>>,
                                                            acts: seq<Act<K, V>>, i: nat)
    requires i < |shards| && After(sharding, shards, acts).Some?
    requires forall a <- acts :: a.Write? || a.Delete? ==> ShardOf(sharding, |shards|, a.key) != i
    ensures After(sharding, shards, acts).value.shards[i] == shards[i]
    decreases |acts|
  {
    if acts != [] {
      var before, a := acts[..|acts| - 1], acts[|acts| - 1];
      assert a in acts && forall b <- before :: b in acts;
      UnwrittenStays(sharding, shards, before, i);
    }
  }

  lemma OneShardIsEnough<K(!new), V(!new)>(sharding: K -> uint32, shards: seq<map<K, V>>, acts: seq<Act<K, V>>,
                                           keys: set<K>)
    requires Homed(sharding, shards) && Completed(sharding, shards, acts) && WritesIn(acts, keys)
    requires S.OneShard(sharding, |shards|, keys)
    ensures OneMoment(sharding, shards, acts)
  {
    hide Apply, Enabled, After, Homed;
    var j: nat := if key :| key in keys then ShardOf(sharding, |shards|, key) else 0;
    assert |shards| > 0 by { HasShards(sharding, shards); }
    var t := After(sharding, shards, acts).value;
    var moments := CountPerShard(sharding, shards, acts);
    var m := moments[j];
    assert HeldAt(sharding, shards, acts, m, j, t.sizes[j]);
    var u := After(sharding, shards, acts[..m]).value;
    assert forall b <- acts[..m] :: b in acts;
    forall i | 0 <= i < |shards|
      ensures |u.shards[i]| == t.sizes[i]
    {
      if i != j {
        assert HeldAt(sharding, shards, acts, moments[i], i, t.sizes[i]);
        assert forall b <- acts[..moments[i]] :: b in acts;
        UnwrittenStays(sharding, shards, acts[..moments[i]], i);
        UnwrittenStays(sharding, shards, acts[..m], i);
      }
    }
    SumIsSizes(t.sizes, u.shards);
    RunHomed(sharding, shards, acts[..m]);
    HomedSize(sharding, u.shards);
  }

  lemma HasShards<K(!new), V(!new)>(sharding: K -> uint32, shards: seq<map<K, V>>)
    requires Homed(sharding, shards)
    ensures |shards| > 0
  {}

  // ---------- And when it is not ----------

  /** Shard h holds one key, if h is a shard at all, and the others none. */
  predicate OneKeyIn<K, V>(t: seq<map<K, V>>, h: nat) {
    forall i :: 0 <= i < |t| ==> |t[i]| == if i == h then 1 else 0
  }

  lemma {:induction false} OneKeySize<K(!new), V(!new)>(t: seq<map<K, V>>, h: nat)
    requires OneKeyIn(t, h)
    ensures Sizes(t) == if h < |t| then 1 else 0
  {
    if t != [] {
      if h == 0 {
        assert OneKeyIn(t[1..], |t|);
        OneKeySize(t[1..], |t|);
      } else {
        assert OneKeyIn(t[1..], h - 1);
        OneKeySize(t[1..], h - 1);
      }
    }
  }

  /** A run that leads to t, in which only the given keys are written and there is never more than one key. */
  ghost predicate Leads<K(!new), V(!new)>(sharding: K -> uint32, shards: seq<map<K, V>>, keys: set<K>,
                                         acts: seq<Act<K, V>>, t: Tally<K, V>) {
    && After(sharding, shards, acts) == Some(t) && WritesIn(acts, keys)
    && forall m :: 0 <= m <= |acts| && After(sharding, shards, acts[..m]).Some? ==>
         Sizes(After(sharding, shards, acts[..m]).value.shards) <= 1
  }

  lemma LeadsOn<K(!new), V(!new)>(sharding: K -> uint32, shards: seq<map<K, V>>, keys: set<K>, acts: seq<Act<K, V>>,
                                  t: Tally<K, V>, a: Act<K, V>, h: nat)
    returns (more: seq<Act<K, V>>, r: Tally<K, V>)
    requires Leads(sharding, shards, keys, acts, t) && Enabled(t, a) && (a.Write? || a.Delete? ==> a.key in keys)
    requires OneKeyIn(Apply(sharding, t, a).shards, h)
    ensures more == acts + [a] && r == Apply(sharding, t, a) && Leads(sharding, shards, keys, more, r)
  {
    hide Apply, Enabled, After;
    more, r := acts + [a], Apply(sharding, t, a);
    AfterLast(sharding, shards, acts, a);
    OneKeySize(r.shards, h);
    forall m | 0 <= m <= |more| && After(sharding, shards, more[..m]).Some?
      ensures Sizes(After(sharding, shards, more[..m]).value.shards) <= 1
    {
      if m <= |acts| {
        assert more[..m] == acts[..m];
      } else {
        assert more[..m] == more;
      }
    }
  }

  /** Count goes on to shard k while nobody writes. */
  lemma {:induction false} CountTo<K(!new), V(!new)>(sharding: K -> uint32, shards: seq<map<K, V>>, keys: set<K>,
                                                      acts: seq<Act<K, V>>, t: Tally<K, V>, h: nat, k: nat)
    returns (more: seq<Act<K, V>>, r: Tally<K, V>)
    requires Leads(sharding, shards, keys, acts, t) && OneKeyIn(t.shards, h) && |t.sizes| <= k <= |t.shards|
    ensures Leads(sharding, shards, keys, more, r) && r.shards == t.shards && |r.sizes| == k
    ensures r.count == t.count + if |t.sizes| <= h < k then 1 else 0
    decreases k - |t.sizes|
  {
    hide Leads;
    more, r := acts, t;
    if |t.sizes| < k {
      more, r := LeadsOn(sharding, shards, keys, acts, t, Add, h);
      more, r := CountTo(sharding, shards, keys, more, r, h, k);
    }
  }

  lemma OneKeyStart<K(!new), V(!new)>(sharding: K -> uint32, n: nat, keys: set<K>, x: K, v: V)
    requires n > 0
    ensures var i := ShardOf(sharding, n, x); var shards := S.Empties<K, V>(n)[i := map[x := v]];
      OneKeyIn(shards, i) && Homed(sharding, shards) && Leads(sharding, shards, keys, [], Start(shards))
  {
    var i := ShardOf(sharding, n, x);
    var shards := S.Empties<K, V>(n)[i := map[x := v]];
    assert |map[x := v].Keys| == 1;
    assert OneKeyIn(shards, i);
    OneKeySize(shards, i);
    hide Sizes;
  }

  /** The only key x is counted, then removed, and y set whose shard comes later: y is counted as well. */
  lemma CountedTwice<K(!new), V(!new)>(sharding: K -> uint32, n: nat, keys: set<K>, x: K, y: K, v: V)
    returns (shards: seq<map<K, V>>, acts: seq<Act<K, V>>, t: Tally<K, V>)
    requires n > 0 && x in keys && y in keys && ShardOf(sharding, n, x) < ShardOf(sharding, n, y)
    ensures |shards| == n && Homed(sharding, shards) && Leads(sharding, shards, keys, acts, t)
    ensures |t.sizes| == n && t.count == 2
  {
    hide Leads, Homed;
    var i, j := ShardOf(sharding, n, x), ShardOf(sharding, n, y);
    OneKeyStart(sharding, n, keys, x, v);
    shards := S.Empties<K, V>(n)[i := map[x := v]];
    acts, t := CountTo(sharding, shards, keys, [], Start(shards), i, j);
    assert map[x := v] - {x} == map[];
    acts, t := LeadsOn(sharding, shards, keys, acts, t, Delete(x), n);
    assert |map[][y := v].Keys| == 1;
    acts, t := LeadsOn(sharding, shards, keys, acts, t, Write(y, v), j);
    acts, t := CountTo(sharding, shards, keys, acts, t, j, n);
  }

  /** Count is always the size of the map at one moment of the call if and only if the keys that others may write
      meanwhile all live in one shard. */
  lemma CountIsAMomentIff<K(!new), V(!new)>(sharding: K -> uint32, n: nat, keys: set<K>, v: V)
    requires n > 0
    ensures AlwaysOneMoment<K, V>(sharding, n, keys) <==> S.OneShard(sharding, n, keys)
  {
    hide Union, After, Homed;
    if S.OneShard(sharding, n, keys) {
      forall shards: seq<map<K, V>>, acts: seq<Act<K, V>>
        | |shards| == n && Homed(sharding, shards) && Completed(sharding, shards, acts) && WritesIn(acts, keys)
        ensures OneMoment(sharding, shards, acts)
      {
        OneShardIsEnough(sharding, shards, acts, keys);
      }
    } else {
      var p, q :| p in keys && q in keys && ShardOf(sharding, n, p) != ShardOf(sharding, n, q);
      var ordered := ShardOf(sharding, n, p) < ShardOf(sharding, n, q);
      var x, y := if ordered then p else q, if ordered then q else p;
      var shards, acts, t := CountedTwice(sharding, n, keys, x, y, v);
      forall m | 0 <= m <= |acts| && After(sharding, shards, acts[..m]).Some?
        ensures |Union(After(sharding, shards, acts[..m]).value.shards)| <= 1
      {
        RunHomed(sharding, shards, acts[..m]);
        HomedSize(sharding, After(sharding, shards, acts[..m]).value.shards);
      }
      assert !OneMoment(sharding, shards, acts);
    }
  }
}
