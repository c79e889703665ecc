/** Residues modulo two to the 65th, and the powers of five among them. */
module Residues {
  import opened Powers

  const TWO_63: nat := 0x8000_0000_0000_0000
  const TWO_65: nat := 0x2_0000_0000_0000_0000

  ghost function Turns(k: int): int {
    TWO_65 * k
  }

  ghost predicate Congruent(a: int, b: int) {
    exists k :: a == b + Turns(k)
  }

  lemma CongruentBy(a: int, b: int, k: int)
    requires a == b + TWO_65 * k
    ensures Congruent(a, b)
  {
    assert a == b + Turns(k);
  }

  lemma Same(a: int)
    ensures Congruent(a, a)
  {
    CongruentBy(a, a, 0);
  }

  lemma Chain(a: int, b: int, c: int)
    requires Congruent(a, b) && Congruent(b, c)
    ensures Congruent(a, c)
  {
    var k :| a == b + Turns(k);
    var m :| b == c + Turns(m);
    CongruentBy(a, c, k + m);
  }

  lemma Scaled(a: int, b: int, c: int)
    requires Congruent(a, b)
    ensures Congruent(a * c, b * c)
  {
    var k :| a == b + Turns(k);
    ScaledTurns(b, k, c);
    CongruentBy(a * c, b * c, k * c);
  }

  lemma ScaledTurns(b: int, k: int, c: int)
    ensures (b + TWO_65 * k) * c == b * c + TWO_65 * (k * c)
  {
    assert (TWO_65 * k) * c == TWO_65 * (k * c);
  }

  lemma Products(a: int, b: int, c: int, d: int)
    requires Congruent(a, b) && Congruent(c, d)
    ensures Congruent(a * c, b * d)
  {
    Scaled(a, b, c);
    Scaled(c, d, b);
    assert c * b == b * c && d * b == b * d;
    Chain(a * c, b * c, b * d);
  }

  // ------------------------------------------------------------------------------------------------
  // The order of five
  // ------------------------------------------------------------------------------------------------

  ghost function Five(n: nat): nat {
    if n == 0 then 1 else 5 * Five(n - 1)
  }

  lemma {:induction false} FiveOfSum(a: nat, b: nat)
    ensures Five(a + b) == Five(a) * Five(b)
  {
    if a == 0 {
    } else {
      FiveOfSum(a - 1, b);
      assert Five(a + b) == 5 * Five(a - 1 + b);
    }
  }

  lemma {:induction false} FiveModEight(n: nat) returns (q: nat)
    ensures Five(n) == 8 * q + if n % 2 == 0 then 1 else 5
  {
    if n == 0 {
      q := 0;
    } else {
      q := FiveModEight(n - 1);
      q := if n % 2 == 0 then 5 * q + 3 else 5 * q;
    }
  }

  lemma OddProduct(a: int, m: int)
    requires a % 2 == 1 && m % 2 == 1
    ensures (a * m) % 2 == 1
  {
    var x, y := a / 2, m / 2;
    assert a * m == 2 * (2 * x * y + x + y) + 1;
  }

  lemma OddTimes(a: int, m: int)
    requires m % 2 == 1 && (a * m) % 2 == 0
    ensures a % 2 == 0
  {
    if a % 2 == 1 {
      OddProduct(a, m);
    }
  }

  /** An odd factor does not help a power of two to divide. */
  lemma {:induction false} OddCancels(a: int, m: int, n: nat, k: int) returns (q: int)
    requires m % 2 == 1 && a * m == Pow2(n) * k
    ensures a == Pow2(n) * q
    decreases n
  {
    if n == 0 {
      q := a;
    } else {
      HalfProduct(n, k);
      OddTimes(a, m);
      var half := a / 2;
      assert a * m == 2 * (half * m);
      q := OddCancels(half, m, n - 1, k);
      HalfProduct(n, q);
    }
  }

  lemma HalfProduct(n: nat, k: int)
    requires n > 0
    ensures Pow2(n) * k == 2 * (Pow2(n - 1) * k)
  {
  }

  lemma Eighths(j: nat, k: int)
    requires j > 0
    ensures Pow2(j + 2) * k == 8 * (Pow2(j - 1) * k)
  {
    HalfProduct(j + 2, k);
    HalfProduct(j + 1, k);
    HalfProduct(j, k);
  }

  lemma EvenExponent(j: nat, d: nat, k: int)
    requires j > 0 && Five(d) - 1 == Pow2(j + 2) * k
    ensures d % 2 == 0
  {
    Eighths(j, k);
    var q := FiveModEight(d);
  }

  lemma FactorsOfSquare(x: nat, m: nat)
    requires x + 1 == 2 * m
    ensures x * x - 1 == 2 * ((x - 1) * m)
  {
    assert x * x - 1 == (x - 1) * (x + 1);
  }

  /** If a power of five is one modulo `2^(j + 2)`, then its exponent is a multiple of `2^j`. */
  lemma {:induction false} OrderOfFive(j: nat, d: nat, k: int) returns (q: int)
    requires Five(d) - 1 == Pow2(j + 2) * k
    ensures d == Pow2(j) * q
    decreases j
  {
    if j == 0 {
      q := d;
    } else {
      EvenExponent(j, d, k);
      var e := d / 2;
      var k' := HalfExponent(j, e, k);
      q := OrderOfFive(j - 1, e, k');
      HalfProduct(j, q);
    }
  }

  lemma {:induction false} FiveModFour(n: nat) returns (q: nat)
    ensures Five(n) == 4 * q + 1
  {
    if n == 0 {
      q := 0;
    } else {
      q := FiveModFour(n - 1);
      q := 5 * q + 1;
    }
  }

  lemma Odd(q: nat)
    ensures (2 * q + 1) % 2 == 1
  {
  }

  lemma HalfExponent(j: nat, e: nat, k: int) returns (k': int)
    requires j > 0 && Five(2 * e) - 1 == Pow2(j + 2) * k
    ensures Five(e) - 1 == Pow2(j + 1) * k'
  {
    var q := FiveModFour(e);
    assert Five(e + e) == Five(2 * e);
    FiveOfSum(e, e);
    k' := HalfOfSquare(Five(e), q, j, k);
  }

  lemma HalfOfSquare(x: nat, q: nat, j: nat, k: int) returns (k': int)
    requires x == 4 * q + 1 && x * x - 1 == Pow2(j + 2) * k
    ensures x - 1 == Pow2(j + 1) * k'
  {
    FactorsOfSquare(x, 2 * q + 1);
    HalfProduct(j + 2, k);
    Odd(q);
    k' := OddCancels(x - 1, 2 * q + 1, j + 1, k);
  }

  lemma Pow2Of32()
    ensures Pow2(32) == 0x1_0000_0000
  {
    assert Pow2(4) == 16;
    Pow2Add(4, 4);
    Pow2Add(8, 8);
    Pow2Add(16, 16);
  }

  lemma LargePowers()
    ensures Pow2(63) == TWO_63 && Pow2(65) == TWO_65
  {
    Pow2Of32();
    Pow2Add(32, 32);
    assert Pow2(65) == 2 * Pow2(64) && Pow2(64) == 2 * Pow2(63);
  }

  /** The powers of five below the exponent `2^63` are distinct. */
  lemma FiveIsNotOne(x: int, d: nat)
    requires x % 2 == 1 && Congruent(x, x * Five(d)) && d < TWO_63
    ensures d == 0
  {
    var k :| x == x * Five(d) + Turns(k);
    var n, m: nat := 65, 63;
    LargePowers();
    DifferenceOf(x, Five(d), k);
    var k' := OddCancels(Five(d) - 1, x, n, -k);
    var q := OrderOfFive(m, d, k');
    SmallMultiple(d, TWO_63, q);
  }

  lemma DifferenceOf(x: int, f: int, k: int)
    requires x == x * f + Turns(k)
    ensures (f - 1) * x == TWO_65 * (-k)
  {
  }

  lemma SmallMultiple(d: nat, p: nat, q: int)
    requires d == p * q && d < p
    ensures d == 0
  {
    if q != 0 {
      AtLeastOnce(p, q);
    }
  }
}
