/** Fermat's little theorem and the two facts about primes that RSA and the
    Miller-Rabin test depend on: 1 has no square roots modulo a prime other than
    1 and -1, and x^(1 + t(p-1)) == x modulo a prime. The proof of Fermat's
    theorem goes through the binomial theorem. */
module Fermat {
  import opened Arith

  /** The binomial coefficient "n choose k", by Pascal's rule. */
  function Binom(n: nat, k: nat): nat
    decreases n
  {
    if k == 0 then 1 else if n == 0 then 0 else Binom(n - 1, k - 1) + Binom(n - 1, k)
  }

  lemma {:induction false} BinomAbove(n: nat, k: nat)
    requires k > n
    ensures Binom(n, k) == 0
    decreases n
  {
    if n > 0 {
      BinomAbove(n - 1, k - 1);
      BinomAbove(n - 1, k);
    }
  }

  lemma {:induction false} BinomSelf(n: nat)
    ensures Binom(n, n) == 1
    decreases n
  {
    if n > 0 {
      BinomSelf(n - 1);
      BinomAbove(n - 1, n);
    }
  }

  lemma {:induction false} BinomOne(n: nat)
    ensures Binom(n, 1) == n
    decreases n
  {
    if n > 0 {
      BinomOne(n - 1);
    }
  }

  /** k * C(n, k) == n * C(n-1, k-1). */
  lemma {:induction false} BinomAbsorb(n: nat, k: nat)
    requires n >= 1 && k >= 1
    ensures k * Binom(n, k) == n * Binom(n - 1, k - 1)
    decreases n
  {
    if k == 1 {
      BinomOne(n);
    } else if n == 1 {
      BinomAbove(0, k - 1);
      BinomAbove(0, k);
    } else {
      BinomAbsorb(n - 1, k - 1);
      BinomAbsorb(n - 1, k);
      var a, b := Binom(n - 1, k - 1), Binom(n - 1, k);
      var c, d := Binom(n - 2, k - 2), Binom(n - 2, k - 1);
      assert Binom(n, k) == a + b;
      assert a == c + d;
      AbsorbStep(n, k, a, b, c, d);
    }
  }

  /** The arithmetic of one induction step of BinomAbsorb. */
  lemma AbsorbStep(n: int, k: int, a: int, b: int, c: int, d: int)
    requires a == c + d
    requires (k - 1) * a == (n - 1) * c && k * b == (n - 1) * d
    ensures k * (a + b) == n * a
  {
    calc {
      k * (a + b);
      (k - 1) * a + a + k * b;
      (n - 1) * c + a + (n - 1) * d;
      (n - 1) * (c + d) + a;
    }
  }

  /** A prime p divides C(p, k) for 0 < k < p. */
  lemma PrimeDividesBinom(p: nat, k: nat)
    requires IsPrime(p) && 0 < k < p
    ensures Divides(p, Binom(p, k))
  {
    BinomAbsorb(p, k);
    ModOfMultiple(p, Binom(p - 1, k - 1));
    assert Divides(p, k * Binom(p, k));
    EuclidLemma(p, k, Binom(p, k));
    if Divides(p, k) {
      DivisorAtMost(p, k);
    }
  }

  /** The first j terms of the binomial expansion of (a + 1)^n. */
  function BinomSum(a: int, n: nat, j: nat): int
    decreases j
  {
    if j == 0 then 0 else BinomSum(a, n, j - 1) + Binom(n, j - 1) * Pow(a, j - 1)
  }

  /** Pascal's rule lifted to partial sums. */
  lemma {:induction false} BinomSumStep(a: int, n: nat, j: nat)
    ensures BinomSum(a, n + 1, j + 1) == BinomSum(a, n, j + 1) + a * BinomSum(a, n, j)
    decreases j
  {
    if j > 0 {
      BinomSumStep(a, n, j - 1);
      var s1, s0 := BinomSum(a, n, j), BinomSum(a, n, j - 1);
      var c0, c1 := Binom(n, j - 1), Binom(n, j);
      var w0, w1 := Pow(a, j - 1), Pow(a, j);
      assert Binom(n + 1, j) == c0 + c1;
      SumStepArith(a, BinomSum(a, n + 1, j), s1, s0, c0, c1, w0, w1);
    }
  }

  /** The arithmetic of one induction step of BinomSumStep. */
  lemma SumStepArith(a: int, t: int, s1: int, s0: int, c0: int, c1: int, w0: int, w1: int)
    requires t == s1 + a * s0 && s1 == s0 + c0 * w0 && w1 == a * w0
    ensures t + (c0 + c1) * w1 == (s1 + c1 * w1) + a * s1
  {
    calc {
      t + (c0 + c1) * w1;
      s1 + a * s0 + c0 * (a * w0) + c1 * w1;
      s1 + c1 * w1 + a * (s0 + c0 * w0);
    }
  }

  /** The binomial theorem for (a + 1)^n. */
  lemma {:induction false} BinomialTheorem(a: int, n: nat)
    ensures Pow(a + 1, n) == BinomSum(a, n, n + 1)
    decreases n
  {
    if n > 0 {
      BinomialTheorem(a, n - 1);
      BinomSumStep(a, n - 1, n);
      BinomAbove(n - 1, n);
      assert BinomSum(a, n - 1, n + 1) == BinomSum(a, n - 1, n);
    }
  }

  /** Every middle term of the expansion of (a + 1)^p is a multiple of p. */
  lemma {:induction false} MiddleTermsDivisible(a: int, p: nat, j: nat)
    requires IsPrime(p) && 1 <= j <= p
    ensures Divides(p, BinomSum(a, p, j) - 1)
    decreases j
  {
    if j == 1 {
      ModOfMultiple(p, 0);
    } else {
      MiddleTermsDivisible(a, p, j - 1);
      PrimeDividesBinom(p, j - 1);
      DividesMultiple(p, Binom(p, j - 1), Pow(a, j - 1));
      DividesSum(p, BinomSum(a, p, j - 1) - 1, Binom(p, j - 1) * Pow(a, j - 1));
    }
  }

  /** (a + 1)^p == a^p + 1 modulo a prime p. */
  lemma FreshmansDream(a: int, p: nat)
    requires IsPrime(p)
    ensures Divides(p, Pow(a + 1, p) - Pow(a, p) - 1)
  {
    BinomialTheorem(a, p);
    BinomSelf(p);
    MiddleTermsDivisible(a, p, p);
  }

  /** Fermat's little theorem: a^p == a modulo a prime p. */
  lemma {:induction false} FermatLittle(a: nat, p: nat)
    requires IsPrime(p)
    ensures Divides(p, Pow(a, p) - a)
    decreases a
  {
    if a == 0 {
      assert Pow(0, p) == 0 * Pow(0, p - 1);
      ModOfMultiple(p, 0);
    } else {
      FermatLittle(a - 1, p);
      FreshmansDream(a - 1, p);
      DividesSum(p, Pow(a, p) - Pow(a - 1, p) - 1, Pow(a - 1, p) - (a - 1));
    }
  }

  /** For a not divisible by the prime p: a^(p-1) == 1 modulo p. */
  lemma FermatUnit(a: nat, p: nat)
    requires IsPrime(p) && !Divides(p, a)
    ensures Pow(a, p - 1) % p == 1
  {
    FermatLittle(a, p);
    assert Pow(a, p) - a == a * (Pow(a, p - 1) - 1);
    EuclidLemma(p, a, Pow(a, p - 1) - 1);
    CongruentIffDivides(Pow(a, p - 1), 1, p);
    DivModUnique(1, p, 0, 1);
  }

  /** Modulo a prime, the only square roots of 1 are 1 and p - 1. */
  lemma SquareRootOfOne(x: nat, p: nat)
    requires IsPrime(p) && x < p && (x * x) % p == 1
    ensures x == 1 || x == p - 1
  {
    DivModUnique(1, p, 0, 1);
    CongruentIffDivides(x * x, 1, p);
    assert x * x - 1 == (x - 1) * (x + 1);
    EuclidLemma(p, x - 1, x + 1);
    if Divides(p, x - 1) {
      SmallMultipleIsZero(x - 1, p);
    } else {
      SmallMultipleIsZero(x + 1 - p, p) by {
        DividesLinear(p, x + 1, p, 1);
      }
    }
  }

  /** x^(1 + t(p-1)) == x modulo a prime p, for every x (also multiples of p). */
  lemma FermatExponent(x: nat, p: nat, t: nat)
    requires IsPrime(p)
    ensures Pow(x, 1 + t * (p - 1)) % p == x % p
  {
    var u := Pow(x, p - 1);
    calc {
      Pow(x, 1 + t * (p - 1));
      { PowAdd(x, 1, t * (p - 1)); }
      x * Pow(x, (p - 1) * t);
      { PowMul(x, p - 1, t); }
      x * Pow(u, t);
    }
    if Divides(p, x) {
      DividesMultiple(p, x, Pow(u, t));
    } else {
      FermatUnit(x, p);
      calc {
        (x * Pow(u, t)) % p;
        { ModMul(x, Pow(u, t), p); }
        ((x % p) * (Pow(u, t) % p)) % p;
        { PowModBase(u, t, p); }
        ((x % p) * (Pow(u % p, t) % p)) % p;
        { PowOne(t); ModMod(x, p); ModMul(x % p, 1, p); }
        x % p;
      }
    }
  }

  /** The RSA identity: for distinct primes p, q and e*d == 1 modulo (p-1)(q-1),
      raising to e and then to d modulo p*q gives back every residue. */
  lemma RsaIdentity(p: nat, q: nat, e: nat, d: nat, v: nat)
    requires IsPrime(p) && IsPrime(q) && p != q
    requires (e * d) % ((p - 1) * (q - 1)) == 1
    requires v < p * q
    ensures Pow(Pow(v, e) % (p * q), d) % (p * q) == v
  {
    var n := p * q;
    calc {
      Pow(Pow(v, e) % n, d) % n;
      { PowModBase(Pow(v, e), d, n); }
      Pow(Pow(v, e), d) % n;
      { PowMul(v, e, d); }
      Pow(v, e * d) % n;
    }
    ExponentCongruent(p, q, e * d, v);
    ExponentCongruent(q, p, e * d, v);
    var x := Pow(v, e * d);
    CongruentIffDivides(x, v, p);
    CongruentIffDivides(x, v, q);
    ProductOfPrimesDivides(p, q, x - v);
    CongruentIffDivides(x, v, n);
    DivModUnique(v, n, 0, v);
  }

  /** An exponent that is 1 modulo (p-1)(q-1) acts as the identity modulo p. */
  lemma ExponentCongruent(p: nat, q: nat, ed: nat, v: nat)
    requires IsPrime(p) && q >= 2
    requires ed % ((p - 1) * (q - 1)) == 1
    ensures Pow(v, ed) % p == v % p
  {
    var phi := (p - 1) * (q - 1);
    var t := ed / phi;
    assert ed == phi * t + 1;
    assert ed == 1 + (t * (q - 1)) * (p - 1);
    FermatExponent(v, p, t * (q - 1));
  }
}
