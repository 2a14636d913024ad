/** The allocator: a table lookup for the position of the highest bit, and one pool for each power of two. */
module Alloc {
  import opened Arith
  import opened Wire
  import opened Wrappers

  const DEBRUIJN_POS: seq<nat> := [0, 9, 1, 10, 13, 21, 2, 29, 11, 14, 16, 18, 22, 25, 3, 30,
                                   8, 12, 20, 28, 15, 17, 24, 7, 19, 27, 23, 6, 26, 5, 4, 31]
  const DEBRUIJN := 0x07C4ACDD
  const POOLS := 17
  const MAX_SIZE := 0x1_0000

  function Pow2(k: nat): (r: nat)
    ensures r > 0
  {
    if k == 0 then 1 else 2 * Pow2(k - 1)
  }

  lemma {:induction false} Pow2Grows(j: nat, k: nat)
    requires j < k
    ensures 2 * Pow2(j) <= Pow2(k)
  {
    if j + 1 < k {
      Pow2Grows(j, k - 1);
    }
  }

  /** The position of the highest bit of n, by halving. */
  function FloorLog2(n: nat): (k: nat)
    ensures n > 0 ==> Pow2(k) <= n < Pow2(k + 1)
  {
    if n < 2 then 0 else 1 + FloorLog2(n / 2)
  }

  lemma OneHighestBit(n: nat, k: nat)
    requires Pow2(k) <= n < Pow2(k + 1)
    ensures k == FloorLog2(n)
  {
    var j := FloorLog2(n);
    if j < k {
      Pow2Grows(j, k);
    } else if k < j {
      Pow2Grows(k, j);
    }
  }

  lemma Pow2Of32()
    ensures Pow2(16) == MAX_SIZE && Pow2(32) == TWO_32
  {
    assert Pow2(8) == 0x100;
    assert Pow2(16) == MAX_SIZE;
    assert Pow2(24) == 0x100_0000;
  }

  // ---------- 32-bit words as bits, lowest first ----------

  type Word = w: seq<bool> | |w| == 32 witness seq(32, _ => false)

  function Bits(n: nat, width: nat): (w: seq<bool>)
    ensures |w| == width
  {
    if width == 0 then [] else [n % 2 == 1] + Bits(n / 2, width - 1)
  }

  function Value(w: seq<bool>): nat {
    if w == [] then 0 else (if w[0] then 1 else 0) + 2 * Value(w[1..])
  }

  function Or(v: Word, w: Word): Word {
    seq(32, i requires 0 <= i < 32 => v[i] || w[i])
  }

  function ShiftRight(v: Word, k: nat): Word {
    seq(32, i requires 0 <= i < 32 => i + k < 32 && v[i + k])
  }

  lemma {:induction false} ValueOfBits(n: nat, width: nat)
    requires n < Pow2(width)
    ensures Value(Bits(n, width)) == n
  {
    if width > 0 {
      ValueOfBits(n / 2, width - 1);
      assert Bits(n, width)[1..] == Bits(n / 2, width - 1);
    }
  }

  ghost predicate HighestBit(w: seq<bool>, k: nat) {
    k < |w| && w[k] && forall j :: k < j < |w| ==> !w[j]
  }

  lemma {:induction false} HighestBitBounds(w: seq<bool>, k: nat)
    requires HighestBit(w, k)
    ensures Pow2(k) <= Value(w) < Pow2(k + 1)
  {
    if k == 0 {
      NoBits(w[1..]);
    } else {
      assert forall j :: k <= j < |w| ==> w[j] == w[1..][j - 1];
      HighestBitBounds(w[1..], k - 1);
    }
  }

  lemma {:induction false} NoBits(w: seq<bool>)
    requires forall j :: 0 <= j < |w| ==> !w[j]
    ensures Value(w) == 0
  {
    if w != [] {
      NoBits(w[1..]);
    }
  }

  lemma {:induction false} HasHighestBit(w: seq<bool>) returns (k: nat)
    requires Value(w) > 0
    ensures HighestBit(w, k)
  {
    if Value(w[1..]) > 0 {
      k := HasHighestBit(w[1..]);
      k := k + 1;
      assert forall j :: 0 < j < |w| ==> w[j] == w[1..][j - 1];
    } else {
      k := 0;
      forall j | 0 < j < |w| && w[j]
        ensures false
      {
        BitIsPositive(w[1..], j - 1);
      }
    }
  }

  lemma {:induction false} BitIsPositive(w: seq<bool>, j: nat)
    requires j < |w| && w[j]
    ensures Value(w) > 0
  {
    if j > 0 {
      BitIsPositive(w[1..], j - 1);
    }
  }

  lemma {:induction false} FilledValue(w: seq<bool>, k: nat)
    requires k < |w| && forall j :: 0 <= j < |w| ==> (w[j] <==> j <= k)
    ensures Value(w) == Pow2(k + 1) - 1
  {
    assert forall j :: 0 < j < |w| ==> w[j] == w[1..][j - 1];
    if k == 0 {
      NoBits(w[1..]);
    } else {
      FilledValue(w[1..], k - 1);
    }
  }

  // ---------- The position of the highest bit ----------

  // The s bits that end at the highest bit k are set, and none above.
  ghost predicate FilledDown(w: Word, k: nat, s: nat) {
    k < 32 && forall j :: 0 <= j < 32 ==> (j > k ==> !w[j]) && (j <= k < j + s ==> w[j])
  }

  /** One shift-and-or step of msb doubles the run of ones under the highest bit. */
  lemma SmearStep(w: Word, k: nat, s: nat)
    requires FilledDown(w, k, s) && s > 0
    ensures FilledDown(Or(w, ShiftRight(w, s)), k, 2 * s)
  {}

  // The products of the all-ones words of 1 to 32 bits with the de Bruijn number, modulo 2^32.
  const PRODUCTS: seq<nat> := [
    0x7C4ACDD, 0x174E0697, 0x3660BA0B, 0x748620F3, 0xF0D0EEC3, 0xE9668A63, 0xDA91C1A3, 0xBCE83023,
    0x81950D23, 0xAEEC723, 0x1DA23B23, 0x43092323, 0x8DD6F323, 0x23729323, 0x4EA9D323, 0xA5185323,
    0x51F55323, 0xABAF5323, 0x5F235323, 0xC60B5323, 0x93DB5323, 0x2F7B5323, 0x66BB5323, 0xD53B5323,
    0xB23B5323, 0x6C3B5323, 0xE03B5323, 0xC83B5323, 0x983B5323, 0x383B5323, 0x783B5323, 0xF83B5323]
  const TOP_BITS: seq<nat> := [
    0, 2, 6, 14, 30, 29, 27, 23, 16, 1, 3, 8, 17, 4, 9, 20, 10, 21, 11, 24, 18, 5, 12, 26, 22, 13, 28,
    25, 19, 7, 15, 31]

  function Product(v: nat): nat {
    v * DEBRUIJN % TWO_32
  }

  function Hash(v: nat): (i: nat)
    ensures i < 32
  {
    Product(v) / 0x800_0000
  }

  lemma Distribute(v: nat, d: nat)
    ensures (2 * v + 1) * d == 2 * (v * d) + d
  {}

  lemma ModTwice(x: nat, d: nat)
    ensures (2 * x + d) % TWO_32 == (2 * (x % TWO_32) + d) % TWO_32
  {
    assert 2 * x + d == 2 * (x % TWO_32) + d + TWO_32 * (2 * (x / TWO_32));
  }

  lemma NextProduct(v: nat)
    ensures Product(2 * v + 1) == (2 * Product(v) + DEBRUIJN) % TWO_32
  {
    Distribute(v, DEBRUIJN);
    ModTwice(v * DEBRUIJN, DEBRUIJN);
  }

  lemma FirstProduct()
    ensures Pow2(1) == 2 && Product(1) == PRODUCTS[0]
  {}

  lemma ProductsRecur(k: nat)
    requires 0 < k < 32
    ensures PRODUCTS[k] == (2 * PRODUCTS[k - 1] + DEBRUIJN) % TWO_32
  {}

  lemma Pow2Twice(k: nat)
    ensures Pow2(k + 1) == 2 * Pow2(k) && Pow2(k) >= 1
  {}

  lemma {:induction false} ProductOfOnes(k: nat)
    requires k < 32
    ensures Product(Pow2(k + 1) - 1) == PRODUCTS[k]
  {
    hide *;
    if k == 0 {
      FirstProduct();
    } else {
      ThirtyTwo();
      Pow2Twice(k);
      ProductOfOnes(k - 1);
      ProductsRecur(k);
      NextProduct(Pow2(k) - 1);
    }
  }

  lemma ThirtyTwo()
    ensures |PRODUCTS| == 32
  {}

  lemma TopBitsOfProduct(k: nat)
    requires k < 32
    ensures PRODUCTS[k] / 0x800_0000 == TOP_BITS[k]
  {}

  lemma TopBitsAreLookedUp(k: nat)
    requires k < 32
    ensures TOP_BITS[k] < 32 && DEBRUIJN_POS[TOP_BITS[k]] == k
  {
    if k < 8 {} else if k < 16 {} else if k < 24 {} else {}
  }

  /** The multiplicative hash of an all-ones word finds its length in the table. */
  lemma DeBruijnTable(k: nat)
    requires k < 32
    ensures DEBRUIJN_POS[Hash(Pow2(k + 1) - 1)] == k
  {
    ProductOfOnes(k);
    TopBitsOfProduct(k);
    TopBitsAreLookedUp(k);
  }

  /** msb: for every 32-bit size from 1 on, the position of its highest bit, floor(log2 size). */
  method Msb(size: nat) returns (pos: nat)
    ensures pos < 32
    ensures pos == FloorLog2(U32(size))
  {
    hide Or, ShiftRight, Value, Hash, Pow2, Bits;
    Pow2Of32();
    var v: Word := Bits(U32(size), 32);
    ValueOfBits(U32(size), 32);
    MsbFindsHighestBit(v);
    v := Or(v, ShiftRight(v, 1));
    v := Or(v, ShiftRight(v, 2));
    v := Or(v, ShiftRight(v, 4));
    v := Or(v, ShiftRight(v, 8));
    v := Or(v, ShiftRight(v, 16));
    ValueFits(v);
    pos := DEBRUIJN_POS[Hash(Value(v))];
  }

  lemma {:induction false} ValueFits(w: seq<bool>)
    ensures Value(w) < Pow2(|w|)
  {
    if w != [] {
      ValueFits(w[1..]);
    }
  }

  function Smeared(v: Word): Word {
    var a := Or(v, ShiftRight(v, 1));
    var b := Or(a, ShiftRight(a, 2));
    var c := Or(b, ShiftRight(b, 4));
    var d := Or(c, ShiftRight(c, 8));
    Or(d, ShiftRight(d, 16))
  }

  lemma FilledWord(w: Word, k: nat)
    requires FilledDown(w, k, 32)
    ensures Value(w) == Pow2(k + 1) - 1
  {
    FilledValue(w, k);
  }

  lemma Smears(v: Word, k: nat)
    requires HighestBit(v, k)
    ensures FilledDown(Smeared(v), k, 32)
  {
    assert FilledDown(v, k, 1);
    hide FilledDown, Or, ShiftRight;
    var a := Or(v, ShiftRight(v, 1));
    var b := Or(a, ShiftRight(a, 2));
    var c := Or(b, ShiftRight(b, 4));
    var d := Or(c, ShiftRight(c, 8));
    SmearStep(v, k, 1);
    SmearStep(a, k, 2);
    SmearStep(b, k, 4);
    SmearStep(c, k, 8);
    SmearStep(d, k, 16);
  }

  lemma ZeroStaysZero(v: Word)
    requires Value(v) == 0
    ensures Value(Smeared(v)) == 0 && Hash(0) == 0
  {
    hide Value;
    forall j | 0 <= j < 32 && v[j]
      ensures false
    {
      BitIsPositive(v, j);
    }
    NoBits(Smeared(v));
  }

  /** Smearing, multiplying and looking up gives the position of the highest bit. */
  lemma MsbFindsHighestBit(v: Word)
    ensures DEBRUIJN_POS[Hash(Value(Smeared(v)))] == FloorLog2(Value(v))
  {
    hide Smeared, Hash, Value, Pow2, FilledDown;
    if Value(v) == 0 {
      ZeroStaysZero(v);
    } else {
      var k := HasHighestBit(v);
      HighestBitBounds(v, k);
      OneHighestBit(Value(v), k);
      Smears(v, k);
      FilledWord(Smeared(v), k);
      DeBruijnTable(k);
    }
  }

  // ---------- Slices and pools ----------

  /** A Go byte slice: len bytes of storage number store from off on; the storage ends at end. */
  datatype Slice = Slice(store: nat, off: nat, len: nat, end: nat) {
    predicate Ok() {
      off + len <= end
    }

    function Cap(): nat
      requires Ok()
    {
      end - off
    }

    /** s[:n] */
    function Take(n: nat): Slice
      requires off + n <= end
    {
      this.(len := n)
    }

    /** s[n:] */
    function Drop(n: nat): Slice
      requires n <= len
    {
      this.(off := off + n, len := len - n)
    }
  }

  /** The pools, and the number that the next storage made by New gets. */
  datatype Pools = Pools(pools: seq<seq<Slice>>, next: nat)

  predicate PoolSlice(k: nat, s: Slice) {
    s.Ok() && s.Cap() == Pow2(k)
  }

  /** Pool k only ever holds slices of capacity 2^k. */
  ghost predicate PoolsOk(p: Pools) {
    |p.pools| == POOLS && forall k, i :: 0 <= k < POOLS && 0 <= i < |p.pools[k]| ==> PoolSlice(k, p.pools[k][i])
  }

  /** The pool that Get uses: the exact power of two, or the next one up. */
  function SizeClass(size: nat): nat {
    var bits := FloorLog2(size);
    if size == Pow2(bits) then bits else bits + 1
  }

  lemma SizeClassIsLeast(size: nat)
    requires 0 < size <= MAX_SIZE
    ensures SizeClass(size) < POOLS
    ensures size <= Pow2(SizeClass(size)) < 2 * size
    ensures forall k :: 0 <= k < SizeClass(size) ==> Pow2(k) < size
  {
    var bits := FloorLog2(size);
    Pow2Of32();
    if bits > 16 {
      Pow2Grows(16, bits);
    }
    forall k | 0 <= k < SizeClass(size)
      ensures Pow2(k) < size
    {
      if k < bits {
        Pow2Grows(k, bits);
      }
    }
  }

  /** sync.Pool.Get on pool k: the pick-th pooled slice, or a new one when the pool has none to give. */
  function TakeFrom(p: Pools, k: nat, pick: Option<nat>): (r: (Slice, Pools))
    requires PoolsOk(p) && k < POOLS
    ensures PoolsOk(r.1) && PoolSlice(k, r.0)
  {
    if pick.Some? && pick.value < |p.pools[k]| then
      var i := pick.value;
      (p.pools[k][i], p.(pools := p.pools[k := p.pools[k][..i] + p.pools[k][i + 1..]]))
    else (Slice(p.next, 0, Pow2(k), Pow2(k)), p.(next := p.next + 1))
  }

  function GetFrom(p: Pools, size: nat, pick: Option<nat>): (r: (Slice, Pools))
    requires PoolsOk(p) && 0 < size <= MAX_SIZE
    ensures PoolsOk(r.1) && r.0.Ok() && r.0.len == size && PoolSlice(SizeClass(size), r.0)
  {
    SizeClassIsLeast(size);
    var (s, q) := TakeFrom(p, SizeClass(size), pick);
    (s.Take(size), q)
  }

  /** A slice that is in the pool of the size's class is used again, and leaves its pool; only otherwise storage is
      made. */
  lemma GetReuses(p: Pools, size: nat, pick: Option<nat>)
    requires PoolsOk(p) && 0 < size <= MAX_SIZE
    ensures var (s, q) := GetFrom(p, size, pick); var k := SizeClass(size);
      && |q.pools| == POOLS && k < POOLS && (forall j :: 0 <= j < POOLS && j != k ==> q.pools[j] == p.pools[j])
      && if pick.Some? && pick.value < |p.pools[k]| then
           && s == p.pools[k][pick.value].(len := size) && q.next == p.next
           && multiset(p.pools[k]) == multiset(q.pools[k]) + multiset{p.pools[k][pick.value]}
         else s == Slice(p.next, 0, size, s.end) && q == p.(next := p.next + 1)
  {
    SizeClassIsLeast(size);
    var k := SizeClass(size);
    if pick.Some? && pick.value < |p.pools[k]| {
      var t, i := p.pools[k], pick.value;
      assert t == t[..i] + ([t[i]] + t[i + 1..]);
    }
  }

  /** A slice is accepted back exactly when its capacity is a power of two up to 65536. */
  predicate Poolable(s: Slice)
    requires s.Ok()
  {
    0 < s.Cap() <= MAX_SIZE && s.Cap() == Pow2(FloorLog2(s.Cap()))
  }

  lemma PoolableIffPowerOfTwo(s: Slice)
    requires s.Ok()
    ensures Poolable(s) <==> exists k: nat :: k < POOLS && s.Cap() == Pow2(k)
    ensures Poolable(s) ==> FloorLog2(s.Cap()) < POOLS
  {
    Pow2Of32();
    if Poolable(s) {
      var k := FloorLog2(s.Cap());
      if k > 16 {
        Pow2Grows(16, k);
      }
    }
    if k: nat :| k < POOLS && s.Cap() == Pow2(k) {
      OneHighestBit(s.Cap(), k);
      if k < 16 {
        Pow2Grows(k, 16);
      }
    }
  }

  function PutTo(p: Pools, s: Slice): (r: Pools)
    requires PoolsOk(p) && s.Ok()
    ensures PoolsOk(r)
  {
    if Poolable(s) then
      PoolableIffPowerOfTwo(s);
      var k := FloorLog2(s.Cap());
      p.(pools := p.pools[k := p.pools[k] + [s]])
    else p
  }

  class Allocator {
    var pools: seq<seq<Slice>>
    var next: nat  // New makes a storage of its own each time

    ghost function View(): Pools
      reads this
    {
      Pools(pools, next)
    }

    constructor ()
      ensures PoolsOk(View()) && next == 0 && forall k :: 0 <= k < POOLS ==> pools[k] == []
    {
      var p: seq<seq<Slice>> := [];
      for k := 0 to POOLS
        invariant |p| == k && forall j :: 0 <= j < k ==> p[j] == []
      {
        p := p + [[]];
      }
      pools, next := p, 0;
    }

    /** None for a size that is not 1 to 65536; else a slice of that length from its size class. */
    method Get(size: int, pick: Option<nat>) returns (r: Option<Slice>)
      requires PoolsOk(View())
      modifies this
      ensures r.Some? <==> 0 < size <= MAX_SIZE
      ensures r.None? ==> View() == old(View())
      ensures r.Some? ==> (r.value, View()) == GetFrom(old(View()), size, pick)
    {
      hide Pow2, FloorLog2;
      if size <= 0 || size > MAX_SIZE {
        return None;
      }
      SizeClassIsLeast(size);
      var bits := Msb(size);
      var k := if size == Pow2(bits) then bits else bits + 1;
      assert k == SizeClass(size);
      if pick.Some? && pick.value < |pools[k]| {
        var i := pick.value;
        r := Some(pools[k][i].Take(size));
        pools := pools[k := pools[k][..i] + pools[k][i + 1..]];
      } else {
        r := Some(Slice(next, 0, Pow2(k), Pow2(k)).Take(size));
        next := next + 1;
      }
    }

    /** Refused unless the capacity is exactly a power of two up to 65536. */
    method Put(buf: Slice) returns (ok: bool)
      requires PoolsOk(View()) && buf.Ok()
      modifies this
      ensures ok <==> exists k: nat :: k < POOLS && buf.Cap() == Pow2(k)
      ensures View() == PutTo(old(View()), buf)
    {
      hide Pow2, FloorLog2;
      PoolableIffPowerOfTwo(buf);
      var bits := Msb(buf.Cap());
      if buf.Cap() == 0 || buf.Cap() > MAX_SIZE || buf.Cap() != Pow2(bits) {
        return false;
      }
      pools := pools[bits := pools[bits] + [buf]];
      ok := true;
    }
  }
}
