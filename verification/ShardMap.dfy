/** The sharded map: shards that each hold the keys that hash to them, and together one plain map. */
module ShardMap {
  import opened Arith
  import opened Wrappers

  const SHARD_COUNT := 32

  // ---------- Shards as values ----------

  /** The shard of a key among n. */
  function ShardOf<K>(sharding: K -> uint32, n: nat, key: K): (i: nat)
    requires n > 0
    ensures i < n
  {
    sharding(key) % n
  }

  /** Two keys share a shard exactly when their hashes differ by a multiple of the number of shards, and a hash below
      that number is the shard's own number. */
  lemma SameShardIff<K>(sharding: K -> uint32, n: nat, j: K, k: K)
    requires n > 0
    ensures ShardOf(sharding, n, j) == ShardOf(sharding, n, k) <==> (sharding(j) - sharding(k)) % n == 0
    ensures sharding(k) < n ==> ShardOf(sharding, n, k) == sharding(k)
  {
    var x, y: int := sharding(j), sharding(k);
    var d := x % n - y % n;
    if d >= 0 {
      RemainderIs(x - y, n, x / n - y / n, d);
    } else {
      Distribute(n, x / n - y / n);
      RemainderIs(x - y, n, x / n - y / n - 1, d + n);
    }
    if y < n {
      RemainderIs(y, n, 0, y);
    }
  }

  lemma Distribute(n: int, k: int)
    ensures n * (k - 1) == n * k - n
  {}

  lemma FarMultiple(n: int, k: int)
    requires n > 0 && k != 0
    ensures n * k >= n || n * k <= -n
  {
    assert k >= 1 ==> n * k >= n * 1;
    assert k <= -1 ==> n * k <= n * -1;
  }

  lemma RemainderIs(d: int, n: int, q: int, r: int)
    requires 0 <= r < n && d == n * q + r
    ensures d % n == r
  {
    var p, m := d / n, d % n;
    assert d == n * p + m;
    assert n * (q - p) == n * q - n * p;
    if q != p {
      FarMultiple(n, q - p);
      assert false;
    }
  }

  /** Every key lives in its own shard only. */
  ghost predicate Homed<K, V>(sharding: K -> uint32, t: seq<map<K, V>>) {
    |t| > 0 && forall i, k :: 0 <= i < |t| && k in t[i] ==> ShardOf(sharding, |t|, k) == i
  }

  /** The plain map that the shards make up. */
  function Union<K, V>(t: seq<map<K, V>>): map<K, V> {
    if t == [] then map[] else t[0] + Union(t[1..])
  }

  function Sizes<K, V>(t: seq<map<K, V>>): nat {
    if t == [] then 0 else |t[0]| + Sizes(t[1..])
  }

  lemma {:induction false} UnionHas<K, V>(t: seq<map<K, V>>, key: K)
    ensures key in Union(t) <==> exists i :: 0 <= i < |t| && key in t[i]
  {
    if t != [] {
      UnionHas(t[1..], key);
      if i :| 0 <= i < |t| && key in t[i] {
        assert i > 0 ==> key in t[1..][i - 1];
      }
      if i :| 0 <= i < |t[1..]| && key in t[1..][i] {
        assert key in t[i + 1];
      }
    }
  }

  lemma {:induction false} UnionAt<K, V>(t: seq<map<K, V>>, i: nat, key: K)
    requires i < |t| && key in t[i] && forall j :: 0 <= j < |t| && key in t[j] ==> j == i
    ensures key in Union(t) && Union(t)[key] == t[i][key]
  {
    if i > 0 {
      assert forall j :: 0 <= j < |t[1..]| && key in t[1..][j] ==> key in t[j + 1];
      UnionAt(t[1..], i - 1, key);
    } else {
      UnionHas(t[1..], key);
      assert forall j :: 0 <= j < |t[1..]| ==> t[1..][j] == t[j + 1];
    }
  }

  /** Looking in a key's own shard is looking in the whole. */
  lemma UnionLookup<K, V>(sharding: K -> uint32, t: seq<map<K, V>>, key: K)
    requires Homed(sharding, t)
    ensures var i := ShardOf(sharding, |t|, key);
      && (key in Union(t) <==> key in t[i])
      && (key in t[i] ==> Union(t)[key] == t[i][key])
  {
    UnionHas(t, key);
    if key in t[ShardOf(sharding, |t|, key)] {
      UnionAt(t, ShardOf(sharding, |t|, key), key);
    }
  }

  /** Changing one key in its shard changes that key of the whole, and nothing else. */
  lemma UnionPut<K(!new), V>(sharding: K -> uint32, t: seq<map<K, V>>, key: K, value: V)
    requires Homed(sharding, t)
    ensures var i := ShardOf(sharding, |t|, key); var u := t[i := t[i][key := value]];
      Homed(sharding, u) && Union(u) == Union(t)[key := value]
  {
    var i := ShardOf(sharding, |t|, key);
    var u := t[i := t[i][key := value]];
    forall k
      ensures k in Union(u) <==> k in Union(t)[key := value]
      ensures k in Union(u) ==> Union(u)[k] == Union(t)[key := value][k]
    {
      UnionLookup(sharding, t, k);
      UnionLookup(sharding, u, k);
    }
    assert Union(u).Keys == Union(t)[key := value].Keys;
  }

  lemma UnionDrop<K(!new), V>(sharding: K -> uint32, t: seq<map<K, V>>, key: K)
    requires Homed(sharding, t)
    ensures var i := ShardOf(sharding, |t|, key); var u := t[i := t[i] - {key}];
      Homed(sharding, u) && Union(u) == Union(t) - {key}
  {
    var i := ShardOf(sharding, |t|, key);
    var u := t[i := t[i] - {key}];
    forall k
      ensures k in Union(u) <==> k in Union(t) - {key}
      ensures k in Union(u) ==> Union(u)[k] == Union(t)[k]
    {
      UnionLookup(sharding, t, k);
      UnionLookup(sharding, u, k);
    }
    assert Union(u).Keys == (Union(t) - {key}).Keys;
  }

  /** The shards share no key, so their sizes add up. */
  lemma {:induction false} SizesAddUp<K, V>(t: seq<map<K, V>>)
    requires forall i, j, k :: 0 <= i < |t| && 0 <= j < |t| && k in t[i] && k in t[j] ==> i == j
    ensures Sizes(t) == |Union(t)|
  {
    if t != [] {
      forall i, j, k | 0 <= i < |t[1..]| && 0 <= j < |t[1..]| && k in t[1..][i] && k in t[1..][j]
        ensures i == j
      {
        assert k in t[i + 1] && k in t[j + 1];
      }
      SizesAddUp(t[1..]);
      assert forall j :: 0 <= j < |t[1..]| ==> t[1..][j] == t[j + 1];
      forall k | k in t[0]
        ensures k !in Union(t[1..])
      {
        UnionHas(t[1..], k);
      }
      assert t[0].Keys !! Union(t[1..]).Keys;
      assert Union(t).Keys == t[0].Keys + Union(t[1..]).Keys;
      assert |Union(t).Keys| == |t[0].Keys| + |Union(t[1..]).Keys|;
    }
  }

  lemma PutThenRest<K, V>(m: map<K, V>, todo: map<K, V>, key: K)
    requires key in todo
    ensures m[key := todo[key]] + (todo - {key}) == m + todo
  {}

  // ---------- The object ----------

  class Shard<K(==), V> {
    var items: map<K, V>

    constructor ()
      ensures items == map[]
    {
      items := map[];
    }
  }

  class ConcurrentMap<K(==, !new), V> {
    const shards: seq<Shard<K, V>>
    const sharding: K -> uint32

    ghost function Tables(): (t: seq<map<K, V>>)
      reads shards
      ensures |t| == |shards|
    {
      seq(|shards|, i requires 0 <= i < |shards| reads shards => shards[i].items)
    }

    ghost predicate Valid()
      reads shards
    {
      && |shards| == SHARD_COUNT
      && (forall i, j :: 0 <= i < j < |shards| ==> shards[i] != shards[j])
      && Homed(sharding, Tables())
    }

    /** The plain map. */
    ghost function Abs(): map<K, V>
      reads shards
    {
      Union(Tables())
    }

    constructor (sharding: K -> uint32)
      ensures Valid() && Abs() == map[] && this.sharding == sharding && fresh(shards) && |shards| == 32
    {
      var s: seq<Shard<K, V>> := [];
      for i := 0 to SHARD_COUNT
        invariant |s| == i && fresh(s)
        invariant forall j :: 0 <= j < i ==> s[j].items == map[]
        invariant forall j, k :: 0 <= j < k < i ==> s[j] != s[k]
      {
        var shard := new Shard<K, V>();
        s := s + [shard];
      }
      shards := s;
      this.sharding := sharding;
      new;
      forall k
        ensures k !in Abs()
      {
        UnionHas(Tables(), k);
      }
      assert Abs().Keys == {};
    }

    function GetShard(key: K): (s: Shard<K, V>)
      requires |shards| == SHARD_COUNT
      ensures s in shards
    {
      shards[ShardOf(sharding, SHARD_COUNT, key)]
    }

    ghost function Home(key: K): (i: nat)
      ensures i < SHARD_COUNT
    {
      ShardOf(sharding, SHARD_COUNT, key)
    }

    /** What one write to the shard of a key does to the whole. */
    lemma Lookup(key: K)
      requires Valid()
      ensures key in Abs() <==> key in GetShard(key).items
      ensures key in Abs() ==> Abs()[key] == GetShard(key).items[key]
    {
      UnionLookup(sharding, Tables(), key);
    }

    method Set(key: K, value: V)
      requires Valid()
      modifies shards
      ensures Valid() && Abs() == old(Abs())[key := value]
    {
      ghost var t := Tables();
      var shard := GetShard(key);
      shard.items := shard.items[key := value];
      UnionPut(sharding, t, key, value);
      assert Tables() == t[Home(key) := t[Home(key)][key := value]];
    }

    method Remove(key: K)
      requires Valid()
      modifies shards
      ensures Valid() && Abs() == old(Abs()) - {key}
    {
      ghost var t := Tables();
      var shard := GetShard(key);
      shard.items := shard.items - {key};
      UnionDrop(sharding, t, key);
      assert Tables() == t[Home(key) := t[Home(key)] - {key}];
    }

    /** Every pair of data is set, in some order. */
    method MSet(data: map<K, V>)
      requires Valid()
      modifies shards
      ensures Valid() && Abs() == old(Abs()) + data
    {
      hide Valid, Abs;
      var todo := data;
      while todo.Keys != {}
        invariant Valid() && Abs() + todo == old(Abs()) + data
        decreases |todo|
      {
        var key :| key in todo.Keys;
        PutThenRest(Abs(), todo, key);
        Set(key, todo[key]);
        todo := todo - {key};
      }
    }

    /** The callback sees the value in the map, if any, and the new one; its result is stored and returned. */
    method Upsert(key: K, value: V, cb: (Option<V>, V) -> V) returns (res: V)
      requires Valid()
      modifies shards
      ensures Valid() && Abs() == old(Abs())[key := res]
      ensures res == cb(if key in old(Abs()) then Some(old(Abs())[key]) else None, value)
    {
      Lookup(key);
      var items := GetShard(key).items;
      res := cb(if key in items then Some(items[key]) else None, value);
      Set(key, res);
    }

    method SetIfAbsent(key: K, value: V) returns (absent: bool)
      requires Valid()
      modifies shards
      ensures Valid() && absent == (key !in old(Abs()))
      ensures Abs() == if absent then old(Abs())[key := value] else old(Abs())
    {
      Lookup(key);
      absent := key !in GetShard(key).items;
      if absent {
        Set(key, value);
      }
    }

    method Get(key: K) returns (value: Option<V>)
      requires Valid()
      ensures value == if key in Abs() then Some(Abs()[key]) else None
    {
      Lookup(key);
      var items := GetShard(key).items;
      value := if key in items then Some(items[key]) else None;
    }

    method Pop(key: K) returns (value: Option<V>)
      requires Valid()
      modifies shards
      ensures Valid() && Abs() == old(Abs()) - {key}
      ensures value == if key in old(Abs()) then Some(old(Abs())[key]) else None
    {
      value := Get(key);
      Remove(key);
    }

    /** The callback decides; its answer is returned even when there was nothing to remove. */
    method RemoveCb(key: K, cb: (K, Option<V>) -> bool) returns (remove: bool)
      requires Valid()
      modifies shards
      ensures Valid()
      ensures remove == cb(key, if key in old(Abs()) then Some(old(Abs())[key]) else None)
      ensures Abs() == if remove then old(Abs()) - {key} else old(Abs())
    {
      var value := Get(key);
      remove := cb(key, value);
      if remove && value.Some? {
        Remove(key);
      } else {
        assert key !in Abs() ==> Abs() - {key} == Abs();
      }
    }

    /** The number of elements of the plain map: the shards' sizes, added one by one. */
    method Count() returns (count: nat)
      requires Valid()
      ensures count == |Abs()|
    {
      count := 0;
      var i := 0;
      while i < SHARD_COUNT
        invariant 0 <= i <= SHARD_COUNT && count + Sizes(Tables()[i..]) == Sizes(Tables())
      {
        assert Tables()[i..][1..] == Tables()[i + 1..];
        count := count + |shards[i].items|;
        i := i + 1;
      }
      forall i, j, k | 0 <= i < SHARD_COUNT && 0 <= j < SHARD_COUNT && k in Tables()[i] && k in Tables()[j]
        ensures i == j
      {
        assert ShardOf(sharding, |Tables()|, k) == i;
      }
      SizesAddUp(Tables());
    }

    /** Items, when nobody writes meanwhile: the plain map. */
    method Items() returns (tmp: map<K, V>)
      requires Valid()
      ensures tmp == Abs()
    {
      tmp := map[];
      var i := SHARD_COUNT;
      while i > 0
        invariant 0 <= i <= SHARD_COUNT && tmp == Union(Tables()[i..])
      {
        i := i - 1;
        assert Tables()[i..][1..] == Tables()[i + 1..];
        tmp := shards[i].items + tmp;
      }
      assert Tables()[0..] == Tables();
    }

    /** Clear removes the keys of a snapshot, one by one. */
    method Clear()
      requires Valid()
      modifies shards
      ensures Valid() && Abs() == map[]
    {
      var snapshot := Items();
      var todo := snapshot.Keys;
      while todo != {}
        invariant Valid() && Abs().Keys == todo
        decreases todo
      {
        var key :| key in todo;
        Remove(key);
        todo := todo - {key};
      }
      assert Abs() == map[];
    }
  }
}
