// Shared vocabulary: optional values, Go's 64-bit integers, and sums over finite maps.
module Prelude {
  datatype Option<+T> = None | Some(value: T)

  // Go's int64 and PostgreSQL's BIGINT.
  const MAX64: int := 0x7fff_ffff_ffff_ffff
  const MIN64: int := -0x8000_0000_0000_0000
  const TWO64: int := 0x1_0000_0000_0000_0000

  type int64 = x: int | -0x8000_0000_0000_0000 <= x <= 0x7fff_ffff_ffff_ffff

  predicate Fits(x: int) {
    MIN64 <= x <= MAX64
  }

  // The value Go's int64 arithmetic leaves for the mathematical result x.
  function Wrap(x: int): (r: int64)
    ensures Fits(x) <==> r == x
  {
    (x - MIN64) % TWO64 + MIN64
  }

  function Power2(k: nat): nat {
    if k == 0 then 1 else 2 * Power2(k - 1)
  }

  lemma {:induction false} Power2Grows(j: nat, k: nat)
    requires j <= k
    ensures 1 <= Power2(j) <= Power2(k)
    decreases k
  {
    if j < k {
      Power2Grows(j, k - 1);
    } else if k > 0 {
      Power2Grows(j - 1, k - 1);
    }
  }

  function Elements<T>(s: seq<T>): set<T> {
    set x | x in s
  }

  // Sum of the values of a finite map. The order of summation does not matter (MapSumRemove).
  ghost function MapSum(m: map<nat, int>): int {
    if m == map[] then 0
    else
      var k :| k in m;
      m[k] + MapSum(m - {k})
  }

  lemma {:induction false} MapSumRemove(m: map<nat, int>, k: nat)
    requires k in m
    ensures MapSum(m) == m[k] + MapSum(m - {k})
    decreases |m|
  {
    var j :| j in m && MapSum(m) == m[j] + MapSum(m - {j});
    if j != k {
      MapSumRemove(m - {j}, k);
      MapSumRemove(m - {k}, j);
      assert m - {j} - {k} == m - {k} - {j};
    }
  }

  lemma MapSumUpdate(m: map<nat, int>, k: nat, v: int)
    ensures MapSum(m[k := v]) == MapSum(m) - (if k in m then m[k] else 0) + v
  {
    MapSumRemove(m[k := v], k);
    if k in m {
      MapSumRemove(m, k);
      assert m[k := v] - {k} == m - {k};
    } else {
      assert m[k := v] - {k} == m;
    }
  }

  lemma {:induction false} MapSumZero(m: map<nat, int>)
    requires forall k :: k in m ==> m[k] == 0
    ensures MapSum(m) == 0
    decreases |m|
  {
    if m != map[] {
      var k :| k in m;
      MapSumRemove(m, k);
      MapSumZero(m - {k});
    }
  }

  lemma {:induction false} MapSumNonneg(m: map<nat, int>)
    requires forall k :: k in m ==> m[k] >= 0
    ensures MapSum(m) >= 0
    ensures forall k :: k in m ==> MapSum(m) >= m[k]
    decreases |m|
  {
    forall k | k in m ensures MapSum(m) >= m[k] {
      MapSumRemove(m, k);
      MapSumNonneg(m - {k});
    }
    assert m != map[] ==> exists k :: k in m && m[k] >= 0;
  }
}
