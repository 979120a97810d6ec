/** my_utilities.py: modular exponentiation by a Montgomery ladder and the
    modular inverse by the iterative extended Euclidean algorithm. */
module Utilities {
  import opened Arith
  import opened Wrappers

  /** x^k mod N, the value montgomery_ladder is meant to compute. The rest of
      the model calls this function wherever the Python code calls the ladder;
      MontgomeryLadder below is proved to return exactly this value. */
  function ModPow(x: int, k: nat, N: nat): (r: nat)
    requires N >= 1
    ensures r < N
  {
    Pow(x, k) % N
  }

  /** The number a string of binary digits denotes, most significant first. */
  function BinaryValue(s: string): nat
    decreases |s|
  {
    if |s| == 0 then 0 else 2 * BinaryValue(s[..|s| - 1]) + (if s[|s| - 1] == '1' then 1 else 0)
  }

  /** The digits of Python's `bin(k)[2:]`: most significant first, no leading
      zero, and the single digit "0" for k == 0. */
  function Binary(k: nat): (s: string)
    ensures |s| >= 1
    ensures forall i :: 0 <= i < |s| ==> s[i] == '0' || s[i] == '1'
    ensures s[0] == '0' <==> k == 0
    ensures k == 0 ==> s == "0"
    ensures BinaryValue(s) == k
    decreases k
  {
    if k == 0 then "0"
    else if k == 1 then "1"
    else
      var s := Binary(k / 2) + (if k % 2 == 0 then "0" else "1");
      assert s[..|s| - 1] == Binary(k / 2);
      s
  }

  /** montgomery_ladder(x, k, N): reduce the base, then walk the digits of
      bin(k) from the most significant one keeping r1 == r0 * x (mod N). */
  method MontgomeryLadder(x: int, k: nat, N: nat) returns (r: nat)
    requires N >= 1
    ensures r == ModPow(x, k, N)
    ensures r < N
  {
    var base := x % N;
    var r0: int, r1: int := 1, base;
    var bits := Binary(k);
    var i := 0;
    while i < |bits|
      invariant 0 <= i <= |bits|
      invariant r0 % N == Pow(base, BinaryValue(bits[..i])) % N
      invariant r1 % N == Pow(base, BinaryValue(bits[..i]) + 1) % N
      invariant i > 0 ==> 0 <= r0 < N
    {
      ghost var j := BinaryValue(bits[..i]);
      PrefixValue(bits, i);
      if bits[i] == '0' {
        LadderStep(base, j + 1, j, r1, r0, N);
        LadderStep(base, j, j, r0, r0, N);
        r1 := (r1 * r0) % N;
        r0 := (r0 * r0) % N;
      } else {
        LadderStep(base, j, j + 1, r0, r1, N);
        LadderStep(base, j + 1, j + 1, r1, r1, N);
        r0 := (r0 * r1) % N;
        r1 := (r1 * r1) % N;
      }
      i := i + 1;
    }
    assert bits[..i] == bits;
    DivModUnique(r0, N, 0, r0);
    assert r0 == Pow(base, k) % N;
    PowModBase(x, k, N);
    r := r0;
  }

  /** Reading one more digit doubles the value and adds the digit. */
  lemma PrefixValue(bits: string, i: nat)
    requires i < |bits|
    ensures BinaryValue(bits[..i + 1]) == 2 * BinaryValue(bits[..i]) + (if bits[i] == '1' then 1 else 0)
  {
    assert bits[..i + 1][..i] == bits[..i];
  }

  /** Multiplying representatives of x^i and x^j gives a representative of x^(i+j). */
  lemma LadderStep(x: int, i: nat, j: nat, u: int, v: int, N: nat)
    requires N >= 1
    requires u % N == Pow(x, i) % N && v % N == Pow(x, j) % N
    ensures ((u * v) % N) % N == Pow(x, i + j) % N
  {
    ModMod(u * v, N);
    ModMul(u, v, N);
    ModMul(Pow(x, i), Pow(x, j), N);
    PowAdd(x, i, j);
  }

  /** The ladder's result depends on the base only through x mod N (line 15). */
  lemma ModPowReducesBase(x: int, k: nat, N: nat)
    requires N >= 1
    ensures ModPow(x % N, k, N) == ModPow(x, k, N)
  {
    PowModBase(x, k, N);
  }

  /** k == 0 gives 1 mod N, which is 0 for N == 1. */
  lemma ModPowZeroExponent(x: int, N: nat)
    requires N >= 1
    ensures ModPow(x, 0, N) == (if N == 1 then 0 else 1)
  {
    if N > 1 {
      DivModUnique(1, N, 0, 1);
    }
  }

  /** mod_inverse(a, m): Euclid's algorithm on (a, m) carrying the coefficient
      of the original a. Python raises ZeroDivisionError at `a // m` when the
      remainder chain reaches m == 0 while a > 1; that is the Err result. */
  method ModInverse(a: nat, m: nat) returns (r: Result<nat>)
    ensures a <= 1 ==> r == Ok(1)
    ensures r.Err? <==> a > 1 && !Coprime(a, m)
    ensures r.Err? ==> r.error == DivisionByZero
    ensures r.Ok? && a >= 1 && m >= 1 ==> (a * r.value) % m == 1 % m
    ensures r.Ok? && m >= 2 ==> r.value < m
  {
    var a1: nat, m1: nat, y: int, x: int := a, m, 0, 1;
    ghost var s: int, t: int := 0, 1;
    while a1 > 1
      invariant EuclidState(a, m, a1, m1, x, y, s, t)
      invariant Coprime(a1, m1) <==> Coprime(a, m)
      invariant a > 1 ==> a1 >= 1
      invariant a <= 1 ==> a1 == a && x == 1
      decreases m1
    {
      if m1 == 0 {
        CoprimeWithZero(a1);
        return Err(DivisionByZero);
      }
      var q := a1 / m1;
      CoprimeStep(a1, m1);
      EuclidIteration(a, m, a1, m1, q, x, y, s, t);
      a1, m1 := m1, a1 % m1;
      y, x := x - q * y, y;
      s, t := t, s - q * t;
    }
    if a > 1 {
      CoprimeWithOne(m1);
    }
    if a >= 1 && m >= 1 {
      InverseResidue(a, m, x, s);
    }
    var d := Shift(x, m);
    r := Ok(d);
  }

  /** Python's final `x + m0 if x < 0 else x`, for a coefficient the loop kept small. */
  function Shift(x: int, m: nat): (d: nat)
    requires x == 1 || 2 * Abs(x) <= m
    ensures m >= 2 ==> d < m
  {
    if x < 0 then
      ModAddMultiple(x, 1, m);
      x + m
    else x
  }

  /** What mod_inverse's loop keeps about its state (a1, m1) and coefficients
      (x, y): the Bezout relations x*a + s*m == a1 and y*a + t*m == m1 with
      ghost partners s, t; a weighted sum of coefficient sizes equal to m;
      coefficients of opposite signs; and x small once the loop has run. */
  ghost predicate EuclidState(a: int, m: int, a1: int, m1: int, x: int, y: int, s: int, t: int) {
    && x * a + s * m == a1 && y * a + t * m == m1
    && Abs(x) * m1 + Abs(y) * a1 == m && x * y <= 0
    && (x == 1 || 2 * Abs(x) <= m)
  }

  lemma EuclidIteration(a: int, m: int, a1: int, m1: int, q: int, x: int, y: int, s: int, t: int)
    requires m1 > 0 && a1 > 1 && q == a1 / m1
    requires EuclidState(a, m, a1, m1, x, y, s, t)
    ensures EuclidState(a, m, m1, a1 % m1, y, x - q * y, t, s - q * t)
  {
    BezoutStep(a, m, a1, m1, q, x, y, s, t);
    SizeStep(m, a1, m1, q, x, y);
  }

  /** The coefficient left by the loop, shifted into range, inverts a modulo m. */
  lemma InverseResidue(a: nat, m: nat, x: int, s: int)
    requires a >= 1 && m >= 1
    requires a > 1 ==> x * a + s * m == 1
    requires a <= 1 ==> x == 1
    ensures x == 1 || 2 * Abs(x) <= m ==> (a * Shift(x, m)) % m == 1 % m
  {
    if a > 1 {
      assert a * x == 1 + m * (-s);
      ModAddMultiple(1, -s, m);
    }
    if x < 0 {
      assert a * (x + m) == a * x + m * a;
      ModAddMultiple(a * x, a, m);
    }
  }

  function Abs(v: int): nat {
    if v < 0 then -v else v
  }

  /** One iteration of mod_inverse keeps both Bezout relations. */
  lemma BezoutStep(a: int, m: int, a1: int, m1: int, q: int, x: int, y: int, s: int, t: int)
    requires m1 > 0 && q == a1 / m1
    requires x * a + s * m == a1 && y * a + t * m == m1
    ensures (x - q * y) * a + (s - q * t) * m == a1 % m1
  {
    assert a1 % m1 == a1 - q * m1;
    calc {
      (x - q * y) * a + (s - q * t) * m;
      (x * a + s * m) - q * (y * a + t * m);
    }
  }

  /** One iteration of mod_inverse keeps the weighted sum of coefficient
      sizes and the sign alternation of the coefficients. */
  lemma SizeStep(m: int, a1: int, m1: int, q: int, x: int, y: int)
    requires m1 > 0 && a1 > 1 && q == a1 / m1
    requires Abs(x) * m1 + Abs(y) * a1 == m && x * y <= 0
    ensures Abs(y) * (a1 % m1) + Abs(x - q * y) * m1 == m
    ensures y * (x - q * y) <= 0
    ensures 2 * Abs(y) <= m
  {
    var r := a1 % m1;
    assert a1 == q * m1 + r;
    assert q >= 0;
    SignStep(x, y, q);
    WeightArith(Abs(x), Abs(y), a1, m1, q, r, m);
  }

  lemma WeightArith(ax: int, ay: int, a1: int, m1: int, q: int, r: int, m: int)
    requires ax >= 0 && ay >= 0 && m1 > 0 && a1 >= 2 && q >= 0 && a1 == q * m1 + r
    requires ax * m1 + ay * a1 == m
    ensures ay * r + (ax + q * ay) * m1 == m
    ensures 2 * ay <= m
  {
    calc {
      ay * r + (ax + q * ay) * m1;
      ay * (a1 - q * m1) + ax * m1 + q * ay * m1;
      ay * a1 + ax * m1;
    }
    assert ay * (a1 - 2) >= 0;
    assert ax * m1 >= 0;
  }

  lemma SignStep(x: int, y: int, q: int)
    requires x * y <= 0 && q >= 0
    ensures y * (x - q * y) <= 0
    ensures Abs(x - q * y) == Abs(x) + q * Abs(y)
  {
    assert y * (x - q * y) == x * y - q * (y * y);
    assert q * (y * y) >= 0;
    if x > 0 {
      assert y <= 0;
    } else if x < 0 {
      assert y >= 0;
    }
  }
}
