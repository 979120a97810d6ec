/** Integer arithmetic the RSA engine rests on: powers, Euclidean division,
    divisibility, primes and coprimality.

    Python's `%` and `//` floor towards minus infinity; for a positive divisor
    that coincides with Dafny's Euclidean `%` and `/`, which is the only case
    the core uses. */
module Arith {

  /** b raised to the e-th power. */
  function Pow(b: int, e: nat): int
    decreases e
  {
    if e == 0 then 1 else b * Pow(b, e - 1)
  }

  /** d is a positive divisor of n. */
  predicate Divides(d: nat, n: int) {
    d > 0 && n % d == 0
  }

  /** n is prime: at least 2, and nothing strictly between 1 and n divides it. */
  predicate IsPrime(n: nat) {
    n >= 2 && forall d: nat :: 2 <= d < n ==> !Divides(d, n)
  }

  /** The only positive common divisor of a and b is 1. */
  ghost predicate Coprime(a: nat, b: nat) {
    forall d: nat :: Divides(d, a) && Divides(d, b) ==> d == 1
  }

  // ---------------------------------------------------------------------------
  // Euclidean division

  lemma MulAtLeast(d: int, k: int)
    requires d > 0 && k >= 1
    ensures d * k >= d
  {
    assert d * k == d + d * (k - 1);
  }

  /** A positive factor can be cancelled from a strict lower bound. */
  lemma MulCancelBelow(d: int, k: int, c: int)
    requires d > 0 && d * k > d * (c - 1)
    ensures k >= c
  {
    if k < c {
      assert d * (c - 1) - d * k == d * (c - 1 - k);
      MulAtLeast(d, c - 1 - k + 1);
    }
  }

  /** Division with remainder is unique, so any decomposition a == d*q + r
      with 0 <= r < d determines `a / d` and `a % d`. */
  lemma DivModUnique(a: int, d: int, q: int, r: int)
    requires d > 0 && a == d * q + r && 0 <= r < d
    ensures a / d == q && a % d == r
  {
    var q', r' := a / d, a % d;
    assert d * (q - q') == r' - r;
    if q' < q {
      MulAtLeast(d, q - q');
    } else if q < q' {
      MulAtLeast(d, q' - q);
    }
  }

  lemma ModOfMultiple(d: int, k: int)
    requires d > 0
    ensures (d * k) % d == 0
  {
    DivModUnique(d * k, d, k, 0);
  }

  lemma ModAddMultiple(a: int, k: int, d: int)
    requires d > 0
    ensures (a + d * k) % d == a % d
  {
    DivModUnique(a + d * k, d, a / d + k, a % d);
  }

  lemma ModMod(a: int, d: int)
    requires d > 0
    ensures (a % d) % d == a % d
  {
    DivModUnique(a % d, d, 0, a % d);
  }

  /** Reducing the factors of a product first does not change its residue. */
  lemma ModMul(a: int, b: int, d: int)
    requires d > 0
    ensures (a * b) % d == ((a % d) * (b % d)) % d
  {
    var qa, ra := a / d, a % d;
    var qb, rb := b / d, b % d;
    calc {
      a * b;
      (d * qa + ra) * (d * qb + rb);
      ra * rb + d * (qa * (d * qb + rb) + ra * qb);
    }
    ModAddMultiple(ra * rb, qa * (d * qb + rb) + ra * qb, d);
  }

  /** Two integers are congruent modulo d exactly when d divides their difference. */
  lemma CongruentIffDivides(a: int, b: int, d: int)
    requires d > 0
    ensures a % d == b % d <==> (a - b) % d == 0
  {
    var qa, ra := a / d, a % d;
    var qb, rb := b / d, b % d;
    assert a - b == (ra - rb) + d * (qa - qb);
    ModAddMultiple(ra - rb, qa - qb, d);
    if ra >= rb {
      DivModUnique(ra - rb, d, 0, ra - rb);
    } else {
      DivModUnique(ra - rb, d, -1, ra - rb + d);
    }
  }

  /** The only multiple of d strictly between -d and d is 0. */
  lemma SmallMultipleIsZero(v: int, d: int)
    requires d > 0 && -d < v < d && v % d == 0
    ensures v == 0
  {
    if v < 0 {
      DivModUnique(v, d, -1, v + d);
    } else {
      DivModUnique(v, d, 0, v);
    }
  }

  // ---------------------------------------------------------------------------
  // Powers

  lemma PowAdd(b: int, i: nat, j: nat)
    ensures Pow(b, i + j) == Pow(b, i) * Pow(b, j)
    decreases i
  {
    if i > 0 {
      PowAdd(b, i - 1, j);
    }
  }

  lemma PowMul(b: int, i: nat, j: nat)
    ensures Pow(b, i * j) == Pow(Pow(b, i), j)
    decreases j
  {
    if j > 0 {
      calc {
        Pow(b, i * j);
        { assert i * j == i * (j - 1) + i; }
        Pow(b, i * (j - 1) + i);
        { PowAdd(b, i * (j - 1), i); }
        Pow(b, i * (j - 1)) * Pow(b, i);
        { PowMul(b, i, j - 1); }
        Pow(Pow(b, i), j - 1) * Pow(b, i);
      }
    }
  }

  lemma PowOne(e: nat)
    ensures Pow(1, e) == 1
  {
    if e > 0 {
      PowOne(e - 1);
    }
  }

  lemma PowPositive(b: int, e: nat)
    requires b > 0
    ensures Pow(b, e) > 0
  {
    if e > 0 {
      PowPositive(b, e - 1);
    }
  }

  /** Raising to a larger exponent never makes a power of b >= 1 smaller. */
  lemma PowMonotone(b: int, i: nat, j: nat)
    requires b >= 1 && i <= j
    ensures Pow(b, i) <= Pow(b, j)
  {
    PowAdd(b, i, j - i);
    PowPositive(b, i);
    PowPositive(b, j - i);
    assert Pow(b, j - i) >= 1;
    MulAtLeast(Pow(b, i), Pow(b, j - i));
  }

  /** The residue of a power depends only on the residue of its base. */
  lemma PowModBase(b: int, e: nat, d: int)
    requires d > 0
    ensures Pow(b % d, e) % d == Pow(b, e) % d
    decreases e
  {
    if e > 0 {
      calc {
        Pow(b, e) % d;
        (b * Pow(b, e - 1)) % d;
        { ModMul(b, Pow(b, e - 1), d); }
        ((b % d) * (Pow(b, e - 1) % d)) % d;
        { PowModBase(b, e - 1, d); }
        ((b % d) * (Pow(b % d, e - 1) % d)) % d;
        { ModMod(b, d); }
        (((b % d) % d) * (Pow(b % d, e - 1) % d)) % d;
        { ModMul(b % d, Pow(b % d, e - 1), d); }
        ((b % d) * Pow(b % d, e - 1)) % d;
        Pow(b % d, e) % d;
      }
    }
  }

  // ---------------------------------------------------------------------------
  // Divisibility

  lemma DividesMultiple(d: nat, a: int, k: int)
    requires Divides(d, a)
    ensures Divides(d, a * k)
  {
    assert a == d * (a / d);
    assert a * k == d * ((a / d) * k);
    ModOfMultiple(d, (a / d) * k);
  }

  /** A common divisor of a and b divides every a - q*b. */
  lemma DividesLinear(d: nat, a: int, b: int, q: int)
    requires Divides(d, a) && Divides(d, b)
    ensures Divides(d, a - q * b)
  {
    assert a == d * (a / d);
    assert b == d * (b / d);
    assert a - q * b == d * (a / d - q * (b / d));
    ModOfMultiple(d, a / d - q * (b / d));
  }

  lemma DividesSum(d: nat, a: int, b: int)
    requires Divides(d, a) && Divides(d, b)
    ensures Divides(d, a + b)
  {
    DividesLinear(d, a, b, -1);
  }

  lemma DividesTransitive(c: nat, d: nat, n: int)
    requires Divides(c, d) && Divides(d, n)
    ensures Divides(c, n)
  {
    assert n == d * (n / d);
    DividesMultiple(c, d, n / d);
  }

  /** A divisor of a positive number is no larger than it. */
  lemma DivisorAtMost(d: nat, n: int)
    requires Divides(d, n) && n > 0
    ensures d <= n
  {
    assert n == d * (n / d);
    MulCancelBelow(d, n / d, 1);
    MulAtLeast(d, n / d);
  }

  lemma DividesSelf(n: nat)
    requires n > 0
    ensures Divides(n, n)
  {
    ModOfMultiple(n, 1);
  }

  /** Coprimality survives one step of Euclid's algorithm. */
  lemma CoprimeStep(a: nat, b: nat)
    requires b > 0
    ensures Coprime(a, b) <==> Coprime(b, a % b)
  {
    var q, r := a / b, a % b;
    assert a - q * b == r && r - (-q) * b == a;
    if Coprime(a, b) {
      forall d: nat | Divides(d, b) && Divides(d, r)
        ensures d == 1
      {
        DividesLinear(d, r, b, -q);
      }
    }
    if Coprime(b, r) {
      forall d: nat | Divides(d, a) && Divides(d, b)
        ensures d == 1
      {
        DividesLinear(d, a, b, q);
      }
    }
  }

  lemma CoprimeWithZero(a: nat)
    ensures Coprime(a, 0) <==> a == 1
  {
    ModOfMultiple(2, 0);
    assert Divides(2, 0);
    if a > 0 {
      DividesSelf(a);
      ModOfMultiple(a, 0);
    }
    if a == 1 {
      forall d: nat | Divides(d, 1)
        ensures d == 1
      {
        DivisorAtMost(d, 1);
      }
    }
  }

  lemma CoprimeWithOne(b: nat)
    ensures Coprime(1, b)
  {
    forall d: nat | Divides(d, 1)
      ensures d == 1
    {
      DivisorAtMost(d, 1);
    }
  }

  /** Bezout's identity for coprime numbers, by Euclid's algorithm. */
  lemma Bezout(a: nat, b: nat) returns (x: int, y: int)
    requires Coprime(a, b)
    ensures a * x + b * y == 1
    decreases b
  {
    if b == 0 {
      CoprimeWithZero(a);
      x, y := 1, 0;
    } else {
      CoprimeStep(a, b);
      var x', y' := Bezout(b, a % b);
      var q := a / b;
      assert a % b == a - q * b;
      x, y := y', x' - q * y';
      calc {
        a * x + b * y;
        a * y' + b * (x' - q * y');
        b * x' + (a - q * b) * y';
        1;
      }
    }
  }

  /** A prime shares no divisor but 1 with a number it does not divide. */
  lemma PrimeCoprime(p: nat, r: nat)
    requires IsPrime(p) && 0 < r < p
    ensures Coprime(r, p)
  {
    forall d: nat | Divides(d, r) && Divides(d, p)
      ensures d == 1
    {
      DivisorAtMost(d, r);
    }
  }

  /** Euclid's lemma: a prime dividing a product divides one of its factors. */
  lemma EuclidLemma(p: nat, a: int, b: int)
    requires IsPrime(p) && Divides(p, a * b)
    ensures Divides(p, a) || Divides(p, b)
  {
    if !Divides(p, a) {
      var r := a % p;
      PrimeCoprime(p, r);
      var x, y := Bezout(r, p);
      var k := (a * b) / p;
      assert a * b == p * k;
      assert a == p * (a / p) + r;
      calc {
        b;
        b * (r * x + p * y);
        (r * b) * x + p * (b * y);
        ((a - p * (a / p)) * b) * x + p * (b * y);
        (a * b - p * ((a / p) * b)) * x + p * (b * y);
        (p * k - p * ((a / p) * b)) * x + p * (b * y);
        p * ((k - (a / p) * b) * x + b * y);
      }
      ModOfMultiple(p, (k - (a / p) * b) * x + b * y);
    }
  }

  /** Two distinct primes dividing n make their product divide n. */
  lemma ProductOfPrimesDivides(p: nat, q: nat, n: int)
    requires IsPrime(p) && IsPrime(q) && p != q
    requires Divides(p, n) && Divides(q, n)
    ensures Divides(p * q, n)
  {
    var k := n / p;
    assert n == p * k;
    EuclidLemma(q, p, k);
    if Divides(q, p) {
      DivisorAtMost(q, p);
      assert false;
    }
    assert k == q * (k / q);
    assert n == (p * q) * (k / q);
    ModOfMultiple(p * q, k / q);
  }

  // ---------------------------------------------------------------------------
  // Least prime factors

  /** The least divisor of n that is at least 2, searching upwards from d. */
  ghost function LeastDivisorFrom(n: nat, d: nat): (r: nat)
    requires 2 <= d <= n
    requires forall e: nat :: 2 <= e < d ==> !Divides(e, n)
    ensures d <= r <= n && Divides(r, n)
    ensures forall e: nat :: 2 <= e < r ==> !Divides(e, n)
    decreases n - d
  {
    if Divides(d, n) then d
    else
      DividesSelf(n);
      LeastDivisorFrom(n, d + 1)
  }

  /** Every n >= 2 has a prime factor p, and p*p <= n unless n itself is prime. */
  lemma LeastPrimeFactor(n: nat) returns (p: nat)
    requires n >= 2
    ensures IsPrime(p) && Divides(p, n) && p <= n
    ensures !IsPrime(n) ==> p * p <= n
  {
    p := LeastDivisorFrom(n, 2);
    forall e: nat | 2 <= e < p
      ensures !Divides(e, p)
    {
      if Divides(e, p) {
        DividesTransitive(e, p, n);
      }
    }
    if !IsPrime(n) {
      var d: nat :| 2 <= d < n && Divides(d, n);
      CofactorBound(n, p);
    }
  }

  /** If the least divisor p of n is below n, its cofactor n / p is at least p. */
  lemma CofactorBound(n: nat, p: nat)
    requires 2 <= p < n && Divides(p, n)
    requires forall e: nat :: 2 <= e < p ==> !Divides(e, n)
    ensures p * p <= n
  {
    var t := n / p;
    assert n == p * t;
    assert p * t > p * 1;
    MulCancelBelow(p, t, 2);
    assert n == t * p;
    ModOfMultiple(t, p);
    assert Divides(t, n);
    assert p <= t;
    assert p * p <= p * t;
  }

  /** Squaring is monotone on the naturals. */
  lemma SquareMonotone(a: nat, b: nat)
    requires a <= b
    ensures a * a <= b * b
  {
    assert b * b - a * a == (b - a) * (b + a);
  }

  /** A prime has no divisor other than 1 and itself. */
  lemma PrimeDivisors(p: nat, d: nat)
    requires IsPrime(p) && Divides(d, p)
    ensures d == 1 || d == p
  {
    DivisorAtMost(d, p);
  }
}
