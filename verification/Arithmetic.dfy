/** Facts about floor division, products and finite sums that the proofs share. */
module Arithmetic {
  import opened Common

  lemma MulMono(a: int, b: int, k: int)
    requires a <= b && 0 <= k
    ensures a * k <= b * k
  {
  }

  /** Floor division brackets its dividend. */
  lemma FloorBounds(x: int, d: int)
    requires d > 0
    ensures x / d * d <= x < x / d * d + d
  {
  }

  lemma FloorAtLeast(x: int, d: int, q: int)
    requires d > 0 && q * d <= x
    ensures q <= x / d
  {
    FloorBounds(x, d);
    if x / d < q {
      MulMono(x / d + 1, q, d);
    }
  }

  lemma FloorAtMost(x: int, d: int, q: int)
    requires d > 0 && x < (q + 1) * d
    ensures x / d <= q
  {
    FloorBounds(x, d);
    if x / d > q {
      MulMono(q + 1, x / d, d);
    }
  }

  /** The checked operations accept exactly the results that 128 bits (signed) and 64 bits
      (unsigned) hold, and return them. */
  lemma CheckedWidths(a: int, b: int, m: nat, n: nat)
    ensures forall x | x in [(AddI128(a, b), a + b), (SubI128(a, b), a - b), (MulI128(a, b), a * b)] ::
              && (x.0.Ok? <==> -0x8000_0000_0000_0000_0000_0000_0000_0000 <= x.1
                               < 0x8000_0000_0000_0000_0000_0000_0000_0000)
              && (x.0.Ok? ==> x.0.value == x.1)
    ensures AddU64(m, n).Ok? <==> m + n < 0x1_0000_0000_0000_0000
    ensures AddU64(m, n).Ok? ==> AddU64(m, n).value == m + n
  {
  }

  /** `q` is `a / b` truncated toward zero: the remainder is smaller than the divisor and has the
      sign of the dividend. */
  predicate Truncated(a: int, b: int, q: int) {
    (a >= 0 ==> 0 <= a - q * b < Max(b, -b)) && (a <= 0 ==> Min(b, -b) < a - q * b <= 0)
  }

  lemma SignFlips(a: int, b: int, q: int)
    requires Truncated(-a, -b, q)
    ensures Truncated(a, b, q)
  {
    assert -a - q * -b == -(a - q * b);
  }

  lemma FloorTruncates(a: int, b: int, q: int)
    requires b > 0 && q * b <= a < q * b + b && a >= 0
    ensures Truncated(a, b, q) && Truncated(-a, b, -q)
  {
    assert -a - -q * b == -(a - q * b);
  }

  lemma DivisionTruncates(a: int, b: int)
    requires b != 0
    ensures Truncated(a, b, TruncDiv(a, b))
    decreases b < 0
  {
    hide Truncated;
    if b < 0 {
      DivisionTruncates(-a, -b);
      SignFlips(a, b, TruncDiv(-a, -b));
    } else {
      FloorBounds(Max(a, -a), b);
      FloorTruncates(Max(a, -a), b, Max(a, -a) / b);
    }
  }

  // ---------------------------------------------------------------- sums over maps

  ghost function SumOf(m: map<Address, int>): int {
    if m == map[] then 0
    else
      var k :| k in m;
      m[k] + SumOf(m - {k})
  }

  lemma {:induction false} SumRemove(m: map<Address, int>, k: Address)
    requires k in m
    ensures SumOf(m) == m[k] + SumOf(m - {k})
    decreases |m|
  {
    var j :| j in m && SumOf(m) == m[j] + SumOf(m - {j});
    if j != k {
      SumRemove(m - {j}, k);
      SumRemove(m - {k}, j);
      assert m - {j} - {k} == m - {k} - {j};
    }
  }

  lemma SumUpdate(m: map<Address, int>, k: Address, x: int)
    ensures SumOf(m[k := x]) == SumOf(m) - GetOr(m, k, 0) + x
  {
    var m' := m[k := x];
    SumRemove(m', k);
    assert m' - {k} == m - {k};
    if k in m {
      SumRemove(m, k);
    } else {
      assert m - {k} == m;
    }
  }

  lemma {:induction false} SumNonNegative(m: map<Address, int>)
    requires forall k :: k in m ==> 0 <= m[k]
    ensures 0 <= SumOf(m)
    ensures forall k :: k in m ==> m[k] <= SumOf(m)
    decreases |m|
  {
    forall k | k in m
      ensures m[k] <= SumOf(m)
    {
      SumRemove(m, k);
      SumNonNegative(m - {k});
    }
    if m != map[] {
      var k :| k in m;
      assert 0 <= m[k] <= SumOf(m);
    }
  }
}
