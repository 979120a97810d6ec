/** genetrate_prime.py: trial division against FIRST500PRIMES, the Miller-Rabin
    test (the algorithm of section C.3.1 of FIPS 186-4, with one more squaring),
    and the generator that draws candidates until one passes both.

    The random draws of the Python code are parameters: the Miller-Rabin
    witnesses of `random.randint(2, n - 2)` and the candidates of
    `random.getrandbits(bits)`. */
module GeneratePrime {
  import opened Arith
  import opened Wrappers
  import opened Utilities
  import opened PrimeTable
  import Fermat

  // ---------------------------------------------------------------------------
  // Low-level check

  /** check_low_level_prime(candidate, lst): the candidate is rejected as soon
      as a listed number divides it and its square does not exceed it. */
  function CheckLowLevelPrime(candidate: nat, lst: seq<nat>): (r: bool)
    requires forall i :: 0 <= i < |lst| ==> lst[i] > 0
    ensures !r <==> exists i :: 0 <= i < |lst| && Divides(lst[i], candidate) && lst[i] * lst[i] <= candidate
    decreases |lst|
  {
    if |lst| == 0 then true
    else if candidate % lst[0] == 0 && lst[0] * lst[0] <= candidate then false
    else
      var r := CheckLowLevelPrime(candidate, lst[1..]);
      assert !r ==> exists i :: 0 <= i < |lst| && Divides(lst[i], candidate) && lst[i] * lst[i] <= candidate by {
        if !r {
          var i :| 0 <= i < |lst[1..]| && Divides(lst[1..][i], candidate) && lst[1..][i] * lst[1..][i] <= candidate;
          assert lst[i + 1] == lst[1..][i];
        }
      }
      assert (exists i :: 0 <= i < |lst| && Divides(lst[i], candidate) && lst[i] * lst[i] <= candidate) ==> !r by {
        if i :| 0 <= i < |lst| && Divides(lst[i], candidate) && lst[i] * lst[i] <= candidate {
          assert i > 0 && lst[1..][i - 1] == lst[i];
        }
      }
      r
  }

  /** A number at least 2 whose square does not exceed a prime, 0 or 1 does
      not divide it. */
  lemma NoSquareDivisor(p: nat, candidate: nat)
    requires p >= 2 && (IsPrime(candidate) || candidate <= 1)
    ensures !(Divides(p, candidate) && p * p <= candidate)
  {
    MulAtLeast(p, p - 1);
  }

  /** The low-level check never rejects a prime, nor 0 or 1, when every listed
      number is at least 2. */
  lemma LowLevelKeepsPrimes(candidate: nat, lst: seq<nat>)
    requires forall i :: 0 <= i < |lst| ==> lst[i] >= 2
    requires IsPrime(candidate) || candidate <= 1
    ensures CheckLowLevelPrime(candidate, lst)
  {
    forall i | 0 <= i < |lst|
      ensures !(Divides(lst[i], candidate) && lst[i] * lst[i] <= candidate)
    {
      NoSquareDivisor(lst[i], candidate);
    }
  }

  /** A candidate below (bound + 1)^2 that passes a list holding every prime up
      to bound is prime: a composite has a prime factor at most its square root. */
  lemma LowLevelSound(candidate: nat, lst: seq<nat>, bound: nat)
    requires forall i :: 0 <= i < |lst| ==> lst[i] > 0
    requires forall p: nat :: p <= bound && IsPrime(p) ==> p in lst
    requires 2 <= candidate < (bound + 1) * (bound + 1)
    requires CheckLowLevelPrime(candidate, lst)
    ensures IsPrime(candidate)
  {
    if !IsPrime(candidate) {
      var p := LeastPrimeFactor(candidate);
      if p > bound {
        SquareMonotone(bound + 1, p);
      }
    }
  }

  /** What check_prime relies on in the table it trial-divides by: it starts
      with 2 and every entry is at least 2. FIRST500PRIMES is such a table
      (TableShaped); the functions below take the table as a parameter so that
      reasoning about them does not have to unfold its 500 entries. */
  predicate TableShape(table: seq<nat>) {
    && |table| >= 1 && table[0] == 2
    && forall i :: 0 <= i < |table| ==> table[i] >= 2
  }

  /** FIRST500PRIMES has the shape check_prime needs and holds every prime up
      to 3571. */
  lemma TableShaped()
    ensures TableShape(First500Primes)
    ensures forall p: nat :: p <= 3571 && IsPrime(p) ==> p in First500Primes
  {
    TableFacts();
  }

  /** check_low_level_prime(candidate, FIRST500PRIMES), as check_prime calls it. */
  function TableCheck(candidate: nat): bool {
    TableShaped();
    CheckLowLevelPrime(candidate, First500Primes)
  }

  /** With FIRST500PRIMES the low-level check never rejects a prime, 0 or 1,
      and from 2 up to 3572^2 - 1 it accepts only primes. */
  lemma TableCheckDecides(candidate: nat)
    ensures IsPrime(candidate) || candidate <= 1 ==> TableCheck(candidate)
    ensures 2 <= candidate < 3572 * 3572 && TableCheck(candidate) ==> IsPrime(candidate)
  {
    TableShaped();
    if 2 <= candidate < 3572 * 3572 && TableCheck(candidate) {
      LowLevelSound(candidate, First500Primes, 3571);
    }
    if IsPrime(candidate) || candidate <= 1 {
      LowLevelKeepsPrimes(candidate, First500Primes);
    }
  }

  // ---------------------------------------------------------------------------
  // Miller-Rabin

  /** The loop at lines 78-81 of genetrate_prime.py, started from (n - 1, 0):
      halve m while it is even and count the halvings. */
  function Decompose(m: nat, k: nat): (r: (nat, nat))
    requires m >= 1
    ensures r.0 % 2 == 1 && r.1 >= k
    ensures r.0 * Pow(2, r.1) == m * Pow(2, k)
    decreases m
  {
    if m % 2 == 0 then
      var r := Decompose(m / 2, k + 1);
      assert (m / 2) * Pow(2, k + 1) == m * Pow(2, k) by {
        assert Pow(2, k + 1) == 2 * Pow(2, k);
        assert (m / 2) * (2 * Pow(2, k)) == ((m / 2) * 2) * Pow(2, k);
      }
      r
    else (m, k)
  }

  /** a^(m 2^j) mod n: the value x holds after j squarings in surely_composite. */
  function Tower(a: int, m: nat, j: nat, n: nat): nat
    requires n >= 1
  {
    PowPositive(2, j);
    ModPow(a, m * Pow(2, j), n)
  }

  /** The squaring loop of surely_composite (lines 104-109) with `rounds`
      squarings left. */
  function SquareChain(x: nat, rounds: nat, n: nat): bool
    requires n >= 1
    decreases rounds
  {
    if rounds == 0 then true
    else
      var y := ModPow(x, 2, n);
      if y == 1 then true
      else if y == n - 1 then false
      else SquareChain(y, rounds - 1, n)
  }

  /** surely_composite(a, m, k, n) (lines 101-110). */
  function SurelyComposite(a: int, m: nat, k: nat, n: nat): (r: bool)
    requires n >= 1
    ensures r ==> ModPow(a, m, n) != 1 && ModPow(a, m, n) != n - 1
  {
    var x := ModPow(a, m, n);
    if x == 1 || x == n - 1 then false else SquareChain(x, k, n)
  }

  /** a is a witness to the compositeness of n: with n - 1 == m 2^k and m odd,
      a^m is not 1 and none of a^(m 2^j), j = 0 .. k, is n - 1 modulo n. The
      range of j goes up to k, one further than section C.3.1 of FIPS 186-4,
      because surely_composite squares k times. */
  predicate IsWitness(a: int, n: nat)
    requires n >= 3
  {
    var (m, k) := Decompose(n - 1, 0);
    Tower(a, m, 0, n) != 1 && forall j :: 0 <= j <= k ==> Tower(a, m, j, n) != n - 1
  }

  /** Squaring moves one step up the tower. */
  lemma TowerStep(a: int, m: nat, j: nat, n: nat)
    requires n >= 1
    ensures ModPow(Tower(a, m, j, n), 2, n) == Tower(a, m, j + 1, n)
  {
    PowPositive(2, j);
    var e := m * Pow(2, j);
    ModPowReducesBase(Pow(a, e), 2, n);
    PowMul(a, e, 2);
    assert e * 2 == m * Pow(2, j + 1);
  }

  /** Once the tower reaches 1 it stays there. */
  lemma {:induction false} TowerStaysOne(a: int, m: nat, j: nat, t: nat, n: nat)
    requires n >= 2 && j <= t && Tower(a, m, j, n) == 1
    ensures Tower(a, m, t, n) == 1
    decreases t - j
  {
    if j < t {
      TowerStep(a, m, j, n);
      assert ModPow(1, 2, n) == 1 by {
        DivModUnique(1, n, 0, 1);
      }
      TowerStaysOne(a, m, j + 1, t, n);
    }
  }

  /** The squaring loop, started at step j of the tower, returns false exactly
      when one of the next `rounds` steps is n - 1. */
  lemma {:induction false} SquareChainMeans(a: int, m: nat, j: nat, rounds: nat, n: nat)
    requires n >= 3
    ensures SquareChain(Tower(a, m, j, n), rounds, n) <==>
      forall t :: j < t <= j + rounds ==> Tower(a, m, t, n) != n - 1
    decreases rounds
  {
    if rounds > 0 {
      TowerStep(a, m, j, n);
      var y := Tower(a, m, j + 1, n);
      if y == 1 {
        forall t | j < t <= j + rounds
          ensures Tower(a, m, t, n) != n - 1
        {
          TowerStaysOne(a, m, j + 1, t, n);
        }
      } else if y != n - 1 {
        SquareChainMeans(a, m, j + 1, rounds - 1, n);
      }
    }
  }

  /** surely_composite reports composite exactly for the witnesses. */
  lemma SurelyCompositeMeans(a: int, n: nat)
    requires n >= 3
    ensures var (m, k) := Decompose(n - 1, 0); SurelyComposite(a, m, k, n) <==> IsWitness(a, n)
  {
    var (m, k) := Decompose(n - 1, 0);
    assert Tower(a, m, 0, n) == ModPow(a, m, n);
    SquareChainMeans(a, m, 0, k, n);
  }

  /** The first step of the tower that is 1, when step k is. */
  lemma {:induction false} FirstOne(a: int, m: nat, i: nat, k: nat, n: nat) returns (j: nat)
    requires n >= 1 && i <= k && Tower(a, m, k, n) == 1
    requires forall t :: 0 <= t < i ==> Tower(a, m, t, n) != 1
    ensures j <= k && Tower(a, m, j, n) == 1
    ensures forall t :: 0 <= t < j ==> Tower(a, m, t, n) != 1
    decreases k - i
  {
    if Tower(a, m, i, n) == 1 {
      j := i;
    } else {
      j := FirstOne(a, m, i + 1, k, n);
    }
  }

  /** The top of the tower is a^(n-1), which is 1 modulo a prime n by
      Fermat's little theorem. */
  lemma TowerTopIsOne(a: int, n: nat)
    requires IsPrime(n) && 2 <= a <= n - 2
    ensures var (m, k) := Decompose(n - 1, 0); Tower(a, m, k, n) == 1
  {
    var (m, k) := Decompose(n - 1, 0);
    assert !Divides(n, a) by {
      DivModUnique(a, n, 0, a);
    }
    Fermat.FermatUnit(a, n);
  }

  /** Modulo a prime, the step below a 1 of the tower is 1 or n - 1. */
  lemma BelowOne(a: int, m: nat, j: nat, n: nat)
    requires IsPrime(n) && Tower(a, m, j + 1, n) == 1
    ensures Tower(a, m, j, n) == 1 || Tower(a, m, j, n) == n - 1
  {
    var x := Tower(a, m, j, n);
    TowerStep(a, m, j, n);
    Fermat.SquareRootOfOne(x, n);
  }

  /** For a prime n no a in [2, n - 2] is a witness: a^(n-1) is 1, and the
      step of the tower before the first 1 is a square root of 1 other than
      1, so it is n - 1. */
  lemma PrimeHasNoWitness(a: int, n: nat)
    requires IsPrime(n) && 2 <= a <= n - 2
    ensures !IsWitness(a, n)
  {
    var (m, k) := Decompose(n - 1, 0);
    TowerTopIsOne(a, n);
    var j := FirstOne(a, m, 0, k, n);
    if j > 0 {
      BelowOne(a, m, j - 1, n);
    }
  }

  /** The witnesses check_miller_rabin may draw for n: random.randint(2, n - 2).
      For n <= 3 the test returns before drawing any, so nothing is asked of them. */
  predicate WitnessesInRange(n: nat, witnesses: seq<int>) {
    n >= 4 ==> forall i :: 0 <= i < |witnesses| ==> 2 <= witnesses[i] <= n - 2
  }

  /** The rounds of check_miller_rabin (lines 113-117): the first witness that
      surely_composite accepts ends the test. */
  function AllRoundsPass(witnesses: seq<int>, m: nat, k: nat, n: nat): (r: bool)
    requires n >= 1
    ensures r <==> forall i :: 0 <= i < |witnesses| ==> !SurelyComposite(witnesses[i], m, k, n)
    decreases |witnesses|
  {
    if |witnesses| == 0 then true
    else if SurelyComposite(witnesses[0], m, k, n) then false
    else
      assert forall i :: 1 <= i < |witnesses| ==> witnesses[1..][i - 1] == witnesses[i];
      AllRoundsPass(witnesses[1..], m, k, n)
  }

  /** check_miller_rabin(n, rounds), where witnesses[i] is the value drawn in
      round i, so that rounds == |witnesses|. */
  function CheckMillerRabin(n: nat, witnesses: seq<int>): (r: bool)
    ensures n <= 1 ==> !r
    ensures 2 <= n <= 3 ==> r
    ensures n >= 4 ==> (!r <==> exists i :: 0 <= i < |witnesses| && IsWitness(witnesses[i], n))
  {
    if n <= 1 then false
    else if n <= 3 then true
    else
      var (m, k) := Decompose(n - 1, 0);
      var r := AllRoundsPass(witnesses, m, k, n);
      assert forall i :: 0 <= i < |witnesses| ==> (SurelyComposite(witnesses[i], m, k, n) <==> IsWitness(witnesses[i], n)) by {
        forall i | 0 <= i < |witnesses| {
          SurelyCompositeMeans(witnesses[i], n);
        }
      }
      r
  }

  /** The Miller-Rabin test never rejects a prime, whatever witnesses it draws. */
  lemma MillerRabinKeepsPrimes(n: nat, witnesses: seq<int>)
    requires IsPrime(n) && WitnessesInRange(n, witnesses)
    ensures CheckMillerRabin(n, witnesses)
  {
    if n >= 4 {
      forall i | 0 <= i < |witnesses|
        ensures !IsWitness(witnesses[i], n)
      {
        PrimeHasNoWitness(witnesses[i], n);
      }
    }
  }

  // ---------------------------------------------------------------------------
  // check_prime and get_prime

  /** The number of Miller-Rabin rounds check_prime asks for. */
  const Rounds: nat := 64

  /** check_prime(n) (lines 120-142): the low-level check against the table,
      then the Miller-Rabin test with the 64 witnesses given. */
  function CheckPrime(table: seq<nat>, n: nat, witnesses: seq<int>): (r: bool)
    requires TableShape(table) && |witnesses| == Rounds
    ensures r ==> n >= 2
    ensures r ==> n % 2 == 1 || n == 2
  {
    if !CheckLowLevelPrime(n, table) then false
    else CheckMillerRabin(n, witnesses)
  }

  /** check_prime accepts every prime, and, with a table holding every prime
      up to bound, below (bound + 1)^2 only primes. With FIRST500PRIMES
      (TableShaped) the bound is 3571. */
  lemma CheckPrimeCorrect(table: seq<nat>, bound: nat, n: nat, witnesses: seq<int>)
    requires TableShape(table) && |witnesses| == Rounds
    requires forall p: nat :: p <= bound && IsPrime(p) ==> p in table
    ensures IsPrime(n) && WitnessesInRange(n, witnesses) ==> CheckPrime(table, n, witnesses)
    ensures n < (bound + 1) * (bound + 1) && CheckPrime(table, n, witnesses) ==> IsPrime(n)
  {
    if IsPrime(n) && WitnessesInRange(n, witnesses) {
      LowLevelKeepsPrimes(n, table);
      MillerRabinKeepsPrimes(n, witnesses);
    }
    if n < (bound + 1) * (bound + 1) && CheckPrime(table, n, witnesses) {
      LowLevelSound(n, table, bound);
    }
  }

  /** 2 and 3 pass check_prime whatever witnesses are given: the Miller-Rabin
      test accepts them before drawing any (lines 74-75). */
  lemma SmallPrimesPass(table: seq<nat>, witnesses: seq<int>)
    requires TableShape(table) && |witnesses| == Rounds
    ensures CheckPrime(table, 2, witnesses) && CheckPrime(table, 3, witnesses)
  {
    assert IsPrime(2) && IsPrime(3);
    CheckPrimeCorrect(table, 0, 2, witnesses);
    CheckPrimeCorrect(table, 0, 3, witnesses);
  }

  /** The draws check_prime makes for each candidate fit. */
  predicate DrawsFit(bits: nat, candidates: seq<nat>, witnesses: seq<seq<int>>) {
    && |witnesses| == |candidates|
    && forall i :: 0 <= i < |candidates| ==> candidates[i] < Pow(2, bits) && |witnesses[i]| == Rounds
  }

  /** The retry loop of get_prime (lines 155-157) from the i-th draw on: the
      first candidate that check_prime accepts. */
  function GetPrimeFrom(table: seq<nat>, bits: nat, candidates: seq<nat>, witnesses: seq<seq<int>>, i: nat): (r: Option<nat>)
    requires TableShape(table) && DrawsFit(bits, candidates, witnesses) && i <= |candidates|
    ensures r.Some? ==> exists t {:trigger CheckPrime(table, candidates[t], witnesses[t])} :: (i <= t < |candidates| && r.value == candidates[t]
      && CheckPrime(table, candidates[t], witnesses[t])
      && forall s {:trigger CheckPrime(table, candidates[s], witnesses[s])} :: i <= s < t ==> !CheckPrime(table, candidates[s], witnesses[s]))
    ensures r.None? <==> forall t {:trigger CheckPrime(table, candidates[t], witnesses[t])} :: i <= t < |candidates| ==> !CheckPrime(table, candidates[t], witnesses[t])
    decreases |candidates| - i
  {
    if i == |candidates| then None
    else if CheckPrime(table, candidates[i], witnesses[i]) then Some(candidates[i])
    else
      var r := GetPrimeFrom(table, bits, candidates, witnesses, i + 1);
      // The candidate first accepted from i + 1 on is also the first from i on.
      assert r.Some? ==> exists t {:trigger CheckPrime(table, candidates[t], witnesses[t])} :: (i <= t < |candidates| && r.value == candidates[t]
        && CheckPrime(table, candidates[t], witnesses[t])
        && forall s {:trigger CheckPrime(table, candidates[s], witnesses[s])} :: i <= s < t ==> !CheckPrime(table, candidates[s], witnesses[s])) by {
        if r.Some? {
          var t :| i + 1 <= t < |candidates| && r.value == candidates[t]
            && CheckPrime(table, candidates[t], witnesses[t])
            && forall s {:trigger CheckPrime(table, candidates[s], witnesses[s])} :: i + 1 <= s < t ==> !CheckPrime(table, candidates[s], witnesses[s]);
          assert i <= t;
        }
      }
      r
  }

  /** get_prime(bits) (lines 145-159): candidates[i] is the i-th value of
      random.getrandbits(bits) and witnesses[i] the witnesses check_prime draws
      for it. The first candidate that passes is returned; None stands for the
      retry loop still running after the draws given. */
  function GetPrime(table: seq<nat>, bits: nat, candidates: seq<nat>, witnesses: seq<seq<int>>): (r: Option<nat>)
    requires TableShape(table) && DrawsFit(bits, candidates, witnesses)
    ensures r.Some? ==> 2 <= r.value < Pow(2, bits)
    ensures r.Some? ==> exists i :: (0 <= i < |candidates| && r.value == candidates[i]
      && CheckPrime(table, candidates[i], witnesses[i])
      && forall j :: 0 <= j < i ==> !CheckPrime(table, candidates[j], witnesses[j]))
    ensures r.None? <==> forall i :: 0 <= i < |candidates| ==> !CheckPrime(table, candidates[i], witnesses[i])
  {
    GetPrimeFrom(table, bits, candidates, witnesses, 0)
  }

  /** What get_prime returns passed check_prime, so with a table holding every
      prime up to bound it is prime whenever 2^bits <= (bound + 1)^2; with
      FIRST500PRIMES that covers every bits up to 23. */
  lemma GetPrimeSound(table: seq<nat>, bound: nat, bits: nat, candidates: seq<nat>, witnesses: seq<seq<int>>)
    requires TableShape(table) && DrawsFit(bits, candidates, witnesses)
    requires forall p: nat :: p <= bound && IsPrime(p) ==> p in table
    requires Pow(2, bits) <= (bound + 1) * (bound + 1)
    ensures GetPrime(table, bits, candidates, witnesses).Some? ==> IsPrime(GetPrime(table, bits, candidates, witnesses).value)
  {
    var r := GetPrime(table, bits, candidates, witnesses);
    if r.Some? {
      var i :| 0 <= i < |candidates| && r.value == candidates[i] && CheckPrime(table, candidates[i], witnesses[i]);
      CheckPrimeCorrect(table, bound, candidates[i], witnesses[i]);
    }
  }

  /** get_prime stops no later than the first prime candidate whose witnesses
      are drawn from [2, n - 2]. */
  lemma GetPrimeFindsPrime(table: seq<nat>, bits: nat, candidates: seq<nat>, witnesses: seq<seq<int>>, i: nat)
    requires TableShape(table) && DrawsFit(bits, candidates, witnesses)
    requires i < |candidates| && IsPrime(candidates[i]) && WitnessesInRange(candidates[i], witnesses[i])
    ensures GetPrime(table, bits, candidates, witnesses).Some?
    ensures exists t :: 0 <= t <= i && GetPrime(table, bits, candidates, witnesses) == Some(candidates[t])
  {
    CheckPrimeCorrect(table, 0, candidates[i], witnesses[i]);
  }

  /** get_prime does not force the top bit: asked for 8 bits, it may return 3. */
  lemma GetPrimeTopBitFree(table: seq<nat>, witnesses: seq<int>)
    requires TableShape(table) && |witnesses| == Rounds
    ensures GetPrime(table, 8, [3], [witnesses]) == Some(3)
  {
    assert IsPrime(3);
    LowLevelKeepsPrimes(3, table);
  }
}
