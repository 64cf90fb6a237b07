/** Bounds, and sums over the values of a map. */
module Arithmetic {

  function Max(a: int, b: int): (m: int)
    ensures m >= a && m >= b && (m == a || m == b)
  {
    if a >= b then a else b
  }

  function Min(a: int, b: int): (m: int)
    ensures m <= a && m <= b && (m == a || m == b)
  {
    if a <= b then a else b
  }

  ghost function SomeKey<K, V>(m: map<K, V>): (k: K)
    requires m != map[]
    ensures k in m
  {
    var k :| k in m;
    k
  }

  ghost function Sum<K, V>(m: map<K, V>, size: V -> nat): nat
    decreases m.Keys
  {
    if m == map[] then 0
    else
      var k := SomeKey(m);
      size(m[k]) + Sum(m - {k}, size)
  }

  /** The order in which the values are added does not matter. */
  lemma {:induction false} SumAround<K, V>(m: map<K, V>, size: V -> nat, k: K)
    requires k in m
    ensures Sum(m, size) == size(m[k]) + Sum(m - {k}, size)
    decreases m.Keys
  {
    var first := SomeKey(m);
    if first != k {
      SumAround(m - {first}, size, k);
      SumAround(m - {k}, size, first);
      assert m - {first} - {k} == m - {k} - {first};
    }
  }

  lemma SumUpdate<K, V>(m: map<K, V>, size: V -> nat, k: K, v: V)
    ensures k in m ==> Sum(m[k := v], size) == Sum(m, size) - size(m[k]) + size(v)
    ensures k !in m ==> Sum(m[k := v], size) == Sum(m, size) + size(v)
  {
    SumAround(m[k := v], size, k);
    assert m[k := v] - {k} == m - {k};
    if k in m { SumAround(m, size, k); } else { assert m - {k} == m; }
  }

  lemma SumRemove<K, V>(m: map<K, V>, size: V -> nat, k: K)
    requires k in m
    ensures Sum(m - {k}, size) == Sum(m, size) - size(m[k])
  {
    SumAround(m, size, k);
  }

  lemma {:induction false} SumOfZeros<K, V>(m: map<K, V>, size: V -> nat)
    requires forall k :: k in m ==> size(m[k]) == 0
    ensures Sum(m, size) == 0
    decreases m.Keys
  {
    if m != map[] { SumOfZeros(m - {SomeKey(m)}, size); }
  }

  /** The bytes of n files of this size. */
  function Copies(n: nat, size: nat): nat { n * size }

  lemma OneMoreCopy(n: nat, size: nat)
    ensures Copies(n + 1, size) == Copies(n, size) + size
  {
  }

  lemma MoreCopies(n: nat, m: nat, size: nat)
    requires n <= m
    ensures Copies(n, size) <= Copies(m, size)
  {
    assert m * size == n * size + (m - n) * size;
  }
}
