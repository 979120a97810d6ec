/** low_level_prime.py: get_n_primes(N) lists the first N primes by trial
    division of the odd numbers against the primes found so far; main() prints
    get_n_primes(500), the list genetrate_prime.py keeps as FIRST500PRIMES. */
module LowLevelPrime {
  import opened Arith
  import PrimeTable

  /** s is an initial segment of the primes: strictly ascending, all prime,
      and missing no prime up to its last entry. */
  ghost predicate FirstPrimes(s: seq<nat>) {
    && |s| >= 1
    && (forall i, j :: 0 <= i < j < |s| ==> s[i] < s[j])
    && (forall i :: 0 <= i < |s| ==> IsPrime(s[i]))
    && (forall m: nat :: m <= s[|s| - 1] && IsPrime(m) ==> m in s)
  }

  /** The product of the entries. */
  function Product(s: seq<nat>): nat
    decreases |s|
  {
    if |s| == 0 then 1 else Product(s[..|s| - 1]) * s[|s| - 1]
  }

  /** Every entry of a list of primes divides its product, which is positive. */
  lemma {:induction false} ProductDivisible(s: seq<nat>)
    requires forall i :: 0 <= i < |s| ==> IsPrime(s[i])
    ensures Product(s) >= 1
    ensures forall i :: 0 <= i < |s| ==> Divides(s[i], Product(s))
    decreases |s|
  {
    if |s| > 0 {
      var init, last := s[..|s| - 1], s[|s| - 1];
      ProductDivisible(init);
      MulAtLeast(Product(init), last);
      forall i | 0 <= i < |s|
        ensures Divides(s[i], Product(s))
      {
        if i < |s| - 1 {
          assert s[i] == init[i];
          DividesMultiple(s[i], Product(init), last);
        } else {
          DividesSelf(last);
          DividesMultiple(last, last, Product(init));
        }
      }
    }
  }

  /** Euclid's argument: when s holds every prime below cur, the least prime
      factor of Product(s) + 1 is a prime at least cur. It bounds the search
      of get_n_primes, so the loop ends. */
  lemma PrimeBeyond(s: seq<nat>, cur: nat) returns (q: nat)
    requires forall i :: 0 <= i < |s| ==> IsPrime(s[i])
    requires forall m: nat :: m < cur && IsPrime(m) ==> m in s
    ensures IsPrime(q) && cur <= q <= Product(s) + 1
  {
    ProductDivisible(s);
    var n := Product(s) + 1;
    q := LeastPrimeFactor(n);
    if q < cur {
      var i :| 0 <= i < |s| && s[i] == q;
      DividesLinear(q, n, Product(s), 1);
      DivisorAtMost(q, 1);
    }
  }

  /** A number from 2 on that no smaller prime divides is prime. */
  lemma NoSmallerPrimeDivides(n: nat)
    requires n >= 2
    requires forall p: nat :: p < n && IsPrime(p) ==> !Divides(p, n)
    ensures IsPrime(n)
  {
    if !IsPrime(n) {
      var p := LeastPrimeFactor(n);
    }
  }

  /** The inner for/else of get_n_primes: with every prime below cur listed,
      cur is prime exactly when none of the listed primes divides it. */
  lemma TrialDivision(primes: seq<nat>, cur: nat)
    requires cur >= 2
    requires forall i :: 0 <= i < |primes| ==> IsPrime(primes[i]) && primes[i] < cur
    requires forall m: nat :: m < cur && IsPrime(m) ==> m in primes
    ensures IsPrime(cur) <==> forall i :: 0 <= i < |primes| ==> !Divides(primes[i], cur)
  {
    if forall i :: 0 <= i < |primes| ==> !Divides(primes[i], cur) {
      forall p: nat | p < cur && IsPrime(p)
        ensures !Divides(p, cur)
      {
        var t :| 0 <= t < |primes| && primes[t] == p;
      }
      NoSmallerPrimeDivides(cur);
    }
  }

  /** What get_n_primes keeps true at the head of its loop: primes is
      ascending and lists exactly the primes below the odd number cur. */
  ghost predicate Sieved(primes: seq<nat>, cur: nat) {
    && cur % 2 == 1 && cur >= 3
    && (forall i, j :: 0 <= i < j < |primes| ==> primes[i] < primes[j])
    && (forall i :: 0 <= i < |primes| ==> IsPrime(primes[i]) && primes[i] < cur)
    && (forall m: nat :: m < cur ==> (IsPrime(m) <==> m in primes))
  }

  /** Moving cur to the next odd number keeps the loop's invariant when cur is
      appended exactly if it is prime: cur + 1 is even and at least 4. */
  lemma NextOdd(primes: seq<nat>, cur: nat, next: seq<nat>)
    requires Sieved(primes, cur)
    requires next == if IsPrime(cur) then primes + [cur] else primes
    ensures Sieved(next, cur + 2)
  {
    assert !IsPrime(cur + 1) by {
      assert Divides(2, cur + 1);
    }
    forall m: nat | m < cur + 2
      ensures IsPrime(m) <==> m in next
    {
      if m < cur {
        assert m in next <==> m in primes;
      }
    }
  }

  /** The loop starts from primes == [2] and cur == 3. */
  lemma SievedStart()
    ensures Sieved([2], 3)
  {
    assert IsPrime(2);
    assert !IsPrime(0) && !IsPrime(1);
  }

  /** The for/else at lines 14-18: cur is appended when no listed prime
      divides it, which, with every prime below cur listed, is exactly when
      cur is prime. */
  method SieveStep(primes: seq<nat>, cur: nat) returns (next: seq<nat>)
    requires cur >= 2
    requires forall i :: 0 <= i < |primes| ==> IsPrime(primes[i]) && primes[i] < cur
    requires forall m: nat :: m < cur && IsPrime(m) ==> m in primes
    ensures next == if IsPrime(cur) then primes + [cur] else primes
  {
    TrialDivision(primes, cur);
    var i := 0;
    while i < |primes|
      invariant 0 <= i <= |primes|
      invariant forall t :: 0 <= t < i ==> !Divides(primes[t], cur)
    {
      if cur % primes[i] == 0 {
        break;
      }
      i := i + 1;
    }
    next := if i == |primes| then primes + [cur] else primes;
  }

  /** An ascending list of primes that holds every prime below cur, and
      only numbers below cur, is an initial segment of the primes. */
  lemma AllBelow(primes: seq<nat>, cur: nat)
    requires |primes| >= 1 && Sieved(primes, cur)
    ensures FirstPrimes(primes)
  {
  }

  /** get_n_primes(N) (lines 1-21): primes starts as [2] and cur at 3; each
      odd cur that no listed prime divides is appended, until N primes are
      listed. For N <= 1 the list stays [2]. */
  method GetNPrimes(N: int) returns (primes: seq<nat>)
    ensures |primes| == (if N <= 1 then 1 else N)
    ensures primes[0] == 2
    ensures FirstPrimes(primes)
  {
    primes := [2];
    var cur: nat := 3;
    SievedStart();
    while |primes| < N
      invariant 1 <= |primes| && primes[0] == 2
      invariant N <= 1 ==> |primes| == 1
      invariant N >= 1 ==> |primes| <= N
      invariant Sieved(primes, cur)
      decreases N - |primes|, Product(primes) + 1 - cur
    {
      ghost var q := PrimeBeyond(primes, cur);
      var next := SieveStep(primes, cur);
      NextOdd(primes, cur, next);
      primes, cur := next, cur + 2;
    }
    AllBelow(primes, cur);
  }

  /** Two initial segments of the primes agree up to the shorter length: the
      i-th entry of each is the i-th prime. */
  lemma EntryAtMost(a: seq<nat>, b: seq<nat>, i: nat)
    requires FirstPrimes(a) && FirstPrimes(b) && |a| == |b| && i < |a|
    requires forall j :: 0 <= j < i ==> a[j] == b[j]
    ensures a[i] <= b[i]
  {
  }

  lemma {:induction false} AgreeUpTo(a: seq<nat>, b: seq<nat>, i: nat)
    requires FirstPrimes(a) && FirstPrimes(b) && |a| == |b| && i <= |a|
    ensures forall j :: 0 <= j < i ==> a[j] == b[j]
    decreases i
  {
    if i > 0 {
      AgreeUpTo(a, b, i - 1);
      EntryAtMost(a, b, i - 1);
      EntryAtMost(b, a, i - 1);
    }
  }

  /** There is only one list of the first n primes. */
  lemma FirstPrimesUnique(a: seq<nat>, b: seq<nat>)
    requires FirstPrimes(a) && FirstPrimes(b) && |a| == |b|
    ensures a == b
  {
    AgreeUpTo(a, b, |a|);
  }

  /** An initial segment of the primes is the ascending list of the primes from
      2 up to its last entry, and conversely. */
  lemma FirstPrimesListed(s: seq<nat>)
    requires |s| >= 1
    ensures FirstPrimes(s) <==> PrimeTable.ListsPrimes(s, 2, s[|s| - 1] + 1)
  {
  }

  /** main() (lines 25-26): get_n_primes(500) is exactly the FIRST500PRIMES
      table of genetrate_prime.py. */
  method GenerateTable() returns (primes: seq<nat>)
    ensures primes == PrimeTable.First500Primes
  {
    primes := GetNPrimes(500);
    PrimeTable.TableFacts();
    FirstPrimesUnique(primes, PrimeTable.First500Primes);
  }
}
