/** Powers of two and the few division facts that bit-field arithmetic needs. */
module Powers {

  function Pow2(n: nat): (p: nat)
    ensures p >= 1
  {
    if n == 0 then 1 else 2 * Pow2(n - 1)
  }

  lemma {:induction false} Pow2Add(a: nat, b: nat)
    ensures Pow2(a + b) == Pow2(a) * Pow2(b)
  {
    if a == 0 {
    } else {
      Pow2Add(a - 1, b);
      assert Pow2(a + b) == 2 * Pow2(a - 1 + b);
    }
  }

  lemma {:induction false} Pow2Monotone(a: nat, b: nat)
    requires a <= b
    ensures Pow2(a) <= Pow2(b)
  {
    if a == b {
    } else {
      Pow2Monotone(a, b - 1);
    }
  }

  lemma Pow2Strict(a: nat, b: nat)
    requires a < b
    ensures Pow2(a) < Pow2(b)
  {
    Pow2Monotone(a + 1, b);
  }

  /** `x >> n`. */
  function ShiftRight(x: nat, n: nat): nat
    decreases n
  {
    if n == 0 then x else ShiftRight(x / 2, n - 1)
  }

  /** The `n` low bits of `x`: `x & lowMask(n)`. */
  function LowBits(x: nat, n: nat): (r: nat)
    ensures r < Pow2(n)
    decreases n
  {
    if n == 0 then 0 else x % 2 + 2 * LowBits(x / 2, n - 1)
  }

  lemma {:induction false} ShiftTwice(x: nat, a: nat, b: nat)
    ensures ShiftRight(ShiftRight(x, a), b) == ShiftRight(x, a + b)
    decreases a
  {
    if a == 0 {
    } else {
      ShiftTwice(x / 2, a - 1, b);
    }
  }

  lemma {:induction false} ShiftOfPow2(n: nat, k: nat)
    ensures ShiftRight(Pow2(n + k), n) == Pow2(k)
    decreases n
  {
    if n == 0 {
    } else {
      ShiftOfPow2(n - 1, k);
      assert Pow2(n + k) / 2 == Pow2(n - 1 + k);
    }
  }

  lemma {:induction false} LowBitsOfSmall(x: nat, n: nat)
    requires x < Pow2(n)
    ensures LowBits(x, n) == x
    decreases n
  {
    if n == 0 {
    } else {
      LowBitsOfSmall(x / 2, n - 1);
    }
  }

  lemma WideField(x: nat, n: nat)
    requires n > 0
    ensures LowBits(x, n) % 2 == x % 2 && LowBits(x, n) / 2 == LowBits(x / 2, n - 1)
  {
    var wide := LowBits(x / 2, n - 1);
    assert LowBits(x, n) == x % 2 + 2 * wide;
  }

  /** A wide field has the narrow field as its low part and the field above it as its high part. */
  lemma {:induction false} LowBitsSplit(x: nat, a: nat, b: nat)
    ensures LowBits(LowBits(x, a + b), a) == LowBits(x, a)
    ensures ShiftRight(LowBits(x, a + b), a) == LowBits(ShiftRight(x, a), b)
    decreases a
  {
    if a == 0 {
    } else {
      LowBitsSplit(x / 2, a - 1, b);
      WideField(x, a + b);
    }
  }

  lemma HalfThenPower(x: nat, p: nat)
    requires p > 0
    ensures x / 2 / p == x / (2 * p) && x % (2 * p) == x % 2 + 2 * (x / 2 % p)
  {
    var q, r := x / 2 / p, x / 2 % p;
    assert x / 2 == q * p + r;
    assert x == (2 * p) * q + (2 * r + x % 2);
    Quotient(x, 2 * p, q, 2 * r + x % 2);
  }

  lemma AtLeastOnce(d: nat, k: int)
    requires k != 0
    ensures d * k >= d || d * k + d <= 0
  {
  }

  lemma Quotient(x: nat, d: nat, q: nat, r: nat)
    requires d > 0 && r < d && x == d * q + r
    ensures x / d == q && x % d == r
  {
    var k := x / d - q;
    assert x == d * (x / d) + x % d;
    assert d * k == d * (x / d) - d * q;
    if k != 0 {
      AtLeastOnce(d, k);
    }
  }

  /** Shifting is dividing. */
  lemma {:induction false} ShiftIsDivision(x: nat, n: nat)
    ensures ShiftRight(x, n) == x / Pow2(n)
    decreases n
  {
    if n == 0 {
    } else {
      ShiftIsDivision(x / 2, n - 1);
      HalfThenPower(x, Pow2(n - 1));
    }
  }

  /** The low bits are the remainder. */
  lemma {:induction false} LowBitsIsRemainder(x: nat, n: nat)
    ensures LowBits(x, n) == x % Pow2(n)
    decreases n
  {
    if n == 0 {
    } else {
      LowBitsIsRemainder(x / 2, n - 1);
      HalfThenPower(x, Pow2(n - 1));
    }
  }
}
