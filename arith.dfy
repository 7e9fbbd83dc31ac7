/** Facts about multiplication and division by a positive batch count, used by both training loops. */
module Arith {

  lemma MulMonotone(a: nat, b: nat, B: nat)
    requires a <= b
    ensures a * B <= b * B
  {
    var d: nat := b - a;
    assert b * B == a * B + d * B;
  }

  /** The step before the i-th batch of epoch e lies in epoch e. */
  lemma EpochStart(e: nat, B: nat, i: nat)
    requires B > 0 && i < B
    ensures (e * B + i) / B == e
  {
    var n := e * B + i;
    var q := n / B;
    assert q * B + n % B == n;
    if q > e {
      assert (e + 1) * B == e * B + B;
      MulMonotone(e + 1, q, B);
    } else if q < e {
      assert (q + 1) * B == q * B + B;
      MulMonotone(q + 1, e, B);
    }
  }

  lemma MulMod(e: nat, B: nat)
    requires B > 0
    ensures (e * B) % B == 0
  {
    var n := e * B;
    var q, r := n / B, n % B;
    assert q * B + r == e * B;
    if q > e {
      assert false;
    } else if q < e {
      assert e * B == q * B + (e - q) * B;
      MulMonotone(1, e - q, B);
    }
  }

  /** The epochs before the last one end within the total batch count. */
  lemma EpochWithinTotal(e: nat, E: nat, B: nat)
    requires e < E
    ensures e * B + B <= E * B
  {
    MulMonotone(e + 1, E, B);
    assert (e + 1) * B == e * B + B;
  }

  /** Ceiling division: the number of whole epochs of L batches needed to reach n batches. */
  function CeilDiv(n: int, L: nat): (e: nat)
    requires L > 0
    ensures n <= e * L
    ensures n > 0 ==> e >= 1 && (e - 1) * L < n
    ensures n <= 0 ==> e == 0
  {
    if n <= 0 then 0
    else
      var q := (n + L - 1) / L;
      assert q * L + (n + L - 1) % L == n + L - 1;
      assert (q - 1) * L == q * L - L;
      q
  }

  /** The ceiling is the only count of whole epochs that reaches n without a spare epoch. */
  lemma CeilDivUnique(n: int, L: nat, e: nat)
    requires L > 0 && n > 0
    requires n <= e * L && (e == 0 || (e - 1) * L < n)
    ensures e == CeilDiv(n, L)
  {
    var c := CeilDiv(n, L);
    if e > c {
      MulMonotone(c, e - 1, L);
    } else if e < c {
      MulMonotone(e, c - 1, L);
    }
  }

  /** A value no lower than -B lies at most one multiple of B below zero. */
  lemma DivAtLeastMinusOne(n: int, B: nat)
    requires B > 0 && n + B >= 0
    ensures n / B >= -1
  {
    var q := n / B;
    assert q * B + n % B == n;
    if q < -1 {
      assert (-q) * B == -(q * B);
      MulMonotone(2, -q, B);
      assert false;
    }
  }
}
