/** FIRST500PRIMES from genetrate_prime.py, and the proof that it lists
    exactly the primes up to 3571 in increasing order.

    The table is kept in the 28 rows of its source layout. Below 3600 a number
    of at least 60 is prime exactly when none of the 17 primes below 60 divides
    it (SieveDecides), so each row is checked against its own stretch of numbers
    by walking up that stretch with Scan; ScanSound turns a successful walk into
    the statement that the row lists exactly the primes of the stretch, and
    ListsPrimesConcat glues the rows together. */
module PrimeTable {
  import opened Arith

  // The rows of FIRST500PRIMES (genetrate_prime.py:5-32), one constant per source line.
  const Row0: seq<nat> :=
    [2, 3, 5, 7, 11, 13, 17, 19, 23, 29, 31, 37, 41, 43, 47, 53, 59, 61, 67, 71, 73, 79, 83, 89, 97,
     101]
  const Row1: seq<nat> :=
    [103, 107, 109, 113, 127, 131, 137, 139, 149, 151, 157, 163, 167, 173, 179, 181, 191, 193, 197,
     199]
  const Row2: seq<nat> :=
    [211, 223, 227, 229, 233, 239, 241, 251, 257, 263, 269, 271, 277, 281, 283, 293, 307, 311, 313,
     317]
  const Row3: seq<nat> :=
    [331, 337, 347, 349, 353, 359, 367, 373, 379, 383, 389, 397, 401, 409, 419, 421, 431, 433, 439,
     443]
  const Row4: seq<nat> :=
    [449, 457, 461, 463, 467, 479, 487, 491, 499, 503, 509, 521, 523, 541, 547, 557, 563, 569, 571,
     577]
  const Row5: seq<nat> :=
    [587, 593, 599, 601, 607, 613, 617, 619, 631, 641, 643, 647, 653, 659, 661, 673, 677, 683, 691,
     701]
  const Row6: seq<nat> :=
    [709, 719, 727, 733, 739, 743, 751, 757, 761, 769, 773, 787, 797, 809, 811, 821, 823, 827, 829,
     839]
  const Row7: seq<nat> :=
    [853, 857, 859, 863, 877, 881, 883, 887, 907, 911, 919, 929, 937, 941, 947, 953, 967, 971, 977,
     983]
  const Row8: seq<nat> :=
    [991, 997, 1009, 1013, 1019, 1021, 1031, 1033, 1039, 1049, 1051, 1061, 1063, 1069, 1087, 1091,
     1093]
  const Row9: seq<nat> :=
    [1097, 1103, 1109, 1117, 1123, 1129, 1151, 1153, 1163, 1171, 1181, 1187, 1193, 1201, 1213, 1217,
     1223]
  const Row10: seq<nat> :=
    [1229, 1231, 1237, 1249, 1259, 1277, 1279, 1283, 1289, 1291, 1297, 1301, 1303, 1307, 1319, 1321,
     1327]
  const Row11: seq<nat> :=
    [1361, 1367, 1373, 1381, 1399, 1409, 1423, 1427, 1429, 1433, 1439, 1447, 1451, 1453, 1459, 1471,
     1481]
  const Row12: seq<nat> :=
    [1483, 1487, 1489, 1493, 1499, 1511, 1523, 1531, 1543, 1549, 1553, 1559, 1567, 1571, 1579, 1583,
     1597]
  const Row13: seq<nat> :=
    [1601, 1607, 1609, 1613, 1619, 1621, 1627, 1637, 1657, 1663, 1667, 1669, 1693, 1697, 1699, 1709,
     1721]
  const Row14: seq<nat> :=
    [1723, 1733, 1741, 1747, 1753, 1759, 1777, 1783, 1787, 1789, 1801, 1811, 1823, 1831, 1847, 1861,
     1867]
  const Row15: seq<nat> :=
    [1871, 1873, 1877, 1879, 1889, 1901, 1907, 1913, 1931, 1933, 1949, 1951, 1973, 1979, 1987, 1993,
     1997]
  const Row16: seq<nat> :=
    [1999, 2003, 2011, 2017, 2027, 2029, 2039, 2053, 2063, 2069, 2081, 2083, 2087, 2089, 2099, 2111,
     2113]
  const Row17: seq<nat> :=
    [2129, 2131, 2137, 2141, 2143, 2153, 2161, 2179, 2203, 2207, 2213, 2221, 2237, 2239, 2243, 2251,
     2267]
  const Row18: seq<nat> :=
    [2269, 2273, 2281, 2287, 2293, 2297, 2309, 2311, 2333, 2339, 2341, 2347, 2351, 2357, 2371, 2377,
     2381]
  const Row19: seq<nat> :=
    [2383, 2389, 2393, 2399, 2411, 2417, 2423, 2437, 2441, 2447, 2459, 2467, 2473, 2477, 2503, 2521,
     2531]
  const Row20: seq<nat> :=
    [2539, 2543, 2549, 2551, 2557, 2579, 2591, 2593, 2609, 2617, 2621, 2633, 2647, 2657, 2659, 2663,
     2671]
  const Row21: seq<nat> :=
    [2677, 2683, 2687, 2689, 2693, 2699, 2707, 2711, 2713, 2719, 2729, 2731, 2741, 2749, 2753, 2767,
     2777]
  const Row22: seq<nat> :=
    [2789, 2791, 2797, 2801, 2803, 2819, 2833, 2837, 2843, 2851, 2857, 2861, 2879, 2887, 2897, 2903,
     2909]
  const Row23: seq<nat> :=
    [2917, 2927, 2939, 2953, 2957, 2963, 2969, 2971, 2999, 3001, 3011, 3019, 3023, 3037, 3041, 3049,
     3061]
  const Row24: seq<nat> :=
    [3067, 3079, 3083, 3089, 3109, 3119, 3121, 3137, 3163, 3167, 3169, 3181, 3187, 3191, 3203, 3209,
     3217]
  const Row25: seq<nat> :=
    [3221, 3229, 3251, 3253, 3257, 3259, 3271, 3299, 3301, 3307, 3313, 3319, 3323, 3329, 3331, 3343,
     3347]
  const Row26: seq<nat> :=
    [3359, 3361, 3371, 3373, 3389, 3391, 3407, 3413, 3433, 3449, 3457, 3461, 3463, 3467, 3469, 3491,
     3499]
  const Row27: seq<nat> :=
    [3511, 3517, 3527, 3529, 3533, 3539, 3541, 3547, 3557, 3559, 3571]

  /** FIRST500PRIMES: the rows in order, concatenated pairwise so that the
      proof below can follow the same grouping. */
  const First500Primes: seq<nat> :=
    (((Row0 + (Row1 + Row2)) + ((Row3 + Row4) + (Row5 + Row6))) + ((Row7 + (Row8 + Row9)) +
    ((Row10 + Row11) + (Row12 + Row13)))) + (((Row14 + (Row15 + Row16)) + ((Row17 + Row18) +
    (Row19 + Row20))) + ((Row21 + (Row22 + Row23)) + ((Row24 + Row25) + (Row26 + Row27))))

  /** The primes below 60: the first 17 entries of the table, and the trial
      divisors that decide primality below 3600. */
  const SmallPrimes: seq<nat> := [2, 3, 5, 7, 11, 13, 17, 19, 23, 29, 31, 37, 41, 43, 47, 53, 59]

  /** Some prime below 60 divides n. */
  predicate SmallFactor(n: int) {
    || n % 2 == 0 || n % 3 == 0 || n % 5 == 0 || n % 7 == 0 || n % 11 == 0 || n % 13 == 0
    || n % 17 == 0 || n % 19 == 0 || n % 23 == 0 || n % 29 == 0 || n % 31 == 0 || n % 37 == 0
    || n % 41 == 0 || n % 43 == 0 || n % 47 == 0 || n % 53 == 0 || n % 59 == 0
  }

  /** Stepping through the odd numbers from n up to hi, row[j..k] lists, in
      order, exactly those that no prime below 60 divides. */
  predicate Scan(n: nat, hi: nat, row: seq<nat>, j: nat, k: nat)
    decreases hi - n
  {
    if n >= hi then j == k
    else if j < k && k <= |row| && row[j] == n then !SmallFactor(n) && Scan(n + 2, hi, row, j + 1, k)
    else SmallFactor(n) && Scan(n + 2, hi, row, j, k)
  }

  /** row lists exactly the primes in [lo, hi), in increasing order. */
  ghost predicate ListsPrimes(row: seq<nat>, lo: nat, hi: nat) {
    && (forall i :: 0 <= i < |row| ==> lo <= row[i] < hi)
    && (forall i, j :: 0 <= i < j < |row| ==> row[i] < row[j])
    && (forall m: nat :: lo <= m < hi ==> (m in row <==> IsPrime(m)))
  }

  /** Below 121 trial division by 2, 3, 5 and 7 decides primality. */
  lemma PrimeBelow121(m: nat)
    requires 2 <= m < 121
    ensures IsPrime(m) <==> m in {2, 3, 5, 7} || (m % 2 != 0 && m % 3 != 0 && m % 5 != 0 && m % 7 != 0)
  {
    if IsPrime(m) {
      assert m > 2 ==> !Divides(2, m);
      assert m > 3 ==> !Divides(3, m);
      assert m > 5 ==> !Divides(5, m);
      assert m > 7 ==> !Divides(7, m);
    } else {
      var p := LeastPrimeFactor(m);
      if p > 10 {
        MulAtLeast(p, 11);
      }
      assert p > 2 ==> !Divides(2, p);
      assert p > 3 ==> !Divides(3, p);
      assert p in {2, 3, 5, 7};
    }
  }

  /** Below 61, trial division by 2, 3, 5 and 7 leaves exactly the small primes. */
  lemma TrialDivisionBelow61(m: nat)
    requires 2 <= m < 61
    ensures m in {2, 3, 5, 7} || (m % 2 != 0 && m % 3 != 0 && m % 5 != 0 && m % 7 != 0)
      <==> m in {2, 3, 5, 7, 11, 13, 17, 19, 23, 29, 31, 37, 41, 43, 47, 53, 59}
  {
    assert m == 2 || m == 3 || m == 4 || m == 5 || m == 6 || m == 7 || m == 8 || m == 9 || m == 10
      || m == 11 || m == 12 || m == 13 || m == 14 || m == 15 || m == 16 || m == 17 || m == 18
      || m == 19 || m == 20 || m == 21 || m == 22 || m == 23 || m == 24 || m == 25 || m == 26
      || m == 27 || m == 28 || m == 29 || m == 30 || m == 31 || m == 32 || m == 33 || m == 34
      || m == 35 || m == 36 || m == 37 || m == 38 || m == 39 || m == 40 || m == 41 || m == 42
      || m == 43 || m == 44 || m == 45 || m == 46 || m == 47 || m == 48 || m == 49 || m == 50
      || m == 51 || m == 52 || m == 53 || m == 54 || m == 55 || m == 56 || m == 57 || m == 58
      || m == 59 || m == 60;
  }

  /** SmallPrimes lists exactly the primes below 61. */
  lemma SmallPrimesListed()
    ensures ListsPrimes(SmallPrimes, 2, 61)
  {
    forall m: nat | 2 <= m < 61
      ensures m in SmallPrimes <==> IsPrime(m)
    {
      PrimeBelow121(m);
      TrialDivisionBelow61(m);
    }
  }

  /** Between 60 and 3600 a number is prime exactly when no prime below 60
      divides it: a composite has a prime factor at most its square root. */
  lemma SieveDecides(m: nat)
    requires 60 <= m < 3600
    ensures IsPrime(m) <==> !SmallFactor(m)
  {
    if IsPrime(m) {
      assert !Divides(2, m) && !Divides(3, m) && !Divides(5, m) && !Divides(7, m) && !Divides(11, m);
      assert !Divides(13, m) && !Divides(17, m) && !Divides(19, m) && !Divides(23, m) && !Divides(29, m);
      assert !Divides(31, m) && !Divides(37, m) && !Divides(41, m) && !Divides(43, m) && !Divides(47, m);
      assert !Divides(53, m) && !Divides(59, m);
    } else {
      var p := LeastPrimeFactor(m);
      if p >= 60 {
        MulAtLeast(p, 60);
      }
      SmallPrimesListed();
      assert p in SmallPrimes;
    }
  }

  /** Every entry a scan passes over lies at or above its start. */
  lemma {:induction false} ScanAbove(n: nat, hi: nat, row: seq<nat>, j: nat, k: nat)
    requires Scan(n, hi, row, j, k)
    ensures j <= k
    ensures j < k ==> k <= |row| && row[j] >= n
    decreases hi - n
  {
    if n < hi {
      if j < k && k <= |row| && row[j] == n {
        ScanAbove(n + 2, hi, row, j + 1, k);
      } else {
        ScanAbove(n + 2, hi, row, j, k);
      }
    }
  }

  /** A scan up to a point an even distance away, followed by a scan from
      there, is one scan. */
  lemma {:induction false} ScanJoin(a: nat, steps: nat, c: nat, row: seq<nat>, i: nat, j: nat, k: nat)
    requires a + 2 * steps <= c
    requires Scan(a, a + 2 * steps, row, i, j) && Scan(a + 2 * steps, c, row, j, k)
    ensures Scan(a, c, row, i, k)
    decreases steps
  {
    var b := a + 2 * steps;
    ScanAbove(b, c, row, j, k);
    if steps > 0 {
      ScanAbove(a, b, row, i, j);
      assert b == (a + 2) + 2 * (steps - 1);
      ScanJoin(a + 2, steps - 1, c, row, if i < j && j <= |row| && row[i] == a then i + 1 else i, j, k);
    }
  }

  /** An even number above 2 is not prime. */
  lemma EvenNotPrime(m: nat)
    requires m > 2 && m % 2 == 0
    ensures !IsPrime(m)
  {
    assert Divides(2, m);
  }

  /** Extending a list of the primes in [n + 2, hi) down to n, when n + 1 is
      not prime. */
  lemma ListsPrimesPrepend(rest: seq<nat>, n: nat, hi: nat)
    requires n < hi && !IsPrime(n + 1) && ListsPrimes(rest, n + 2, hi)
    ensures IsPrime(n) ==> ListsPrimes([n] + rest, n, hi)
    ensures !IsPrime(n) ==> ListsPrimes(rest, n, hi)
  {
    var c := [n] + rest;
    assert n !in rest && n + 1 !in rest;
    forall i, j | 0 <= i < j < |c|
      ensures c[i] < c[j]
    {
      assert c[j] == rest[j - 1];
      if i > 0 {
        assert c[i] == rest[i - 1];
      }
    }
  }

  /** A scan from an odd n up to hi shows that row[j..k] lists exactly the
      primes in [n, hi): the odd numbers by SieveDecides, the even ones skipped
      over because none of them is prime. */
  lemma {:induction false} ScanSound(n: nat, hi: nat, row: seq<nat>, j: nat, k: nat)
    requires 60 <= n && hi <= 3600 && n % 2 == 1 && k <= |row|
    requires Scan(n, hi, row, j, k)
    ensures j <= k
    ensures ListsPrimes(row[j..k], n, hi)
    decreases hi - n
  {
    ScanAbove(n, hi, row, j, k);
    if n < hi {
      SieveDecides(n);
      EvenNotPrime(n + 1);
      if j < k && row[j] == n {
        ScanSound(n + 2, hi, row, j + 1, k);
        assert row[j..k] == [n] + row[j + 1..k];
        ListsPrimesPrepend(row[j + 1..k], n, hi);
      } else {
        ScanSound(n + 2, hi, row, j, k);
        ListsPrimesPrepend(row[j..k], n, hi);
      }
    }
  }

  /** A row that a scan from its first number to hi accepts lists exactly the
      primes in [lo, hi). */
  lemma RowListsPrimes(row: seq<nat>, lo: nat, hi: nat, j: nat)
    requires 60 <= lo && hi <= 3600 && lo % 2 == 1 && j <= |row|
    requires Scan(lo, hi, row, j, |row|)
    ensures ListsPrimes(row[j..], lo, hi)
  {
    ScanSound(lo, hi, row, j, |row|);
    assert row[j..|row|] == row[j..];
  }

  /** Lists of the primes in two adjacent stretches join into the list of the
      primes in their union. */
  lemma ListsPrimesConcat(a: seq<nat>, b: seq<nat>, lo: nat, mid: nat, hi: nat)
    requires lo <= mid <= hi
    requires ListsPrimes(a, lo, mid) && ListsPrimes(b, mid, hi)
    ensures ListsPrimes(a + b, lo, hi)
  {
    var c := a + b;
    forall i, j | 0 <= i < j < |c|
      ensures c[i] < c[j]
    {
      if j < |a| {
      } else if i >= |a| {
        assert c[i] == b[i - |a|] && c[j] == b[j - |a|];
      } else {
        assert c[j] == b[j - |a|];
      }
    }
    forall m: nat | lo <= m < hi
      ensures m in c <==> IsPrime(m)
    {
      if m < mid {
        assert m !in b;
      } else {
        assert m !in a;
      }
    }
  }


  // One proof per row. The row's stretch is cut into pieces of sixteen numbers;
  // each piece states which of its odd numbers a prime below 60 divides, from
  // which Dafny evaluates Scan over the piece, and ScanJoin joins the pieces,
  // three at a time.

  lemma Row0At61()
    ensures Scan(61, 77, Row0, 17, 21)
  {
    assert !SmallFactor(61) && SmallFactor(63) && SmallFactor(65) && !SmallFactor(67) &&
      SmallFactor(69) && !SmallFactor(71) && !SmallFactor(73) && SmallFactor(75);
  }

  lemma Row0At77()
    ensures Scan(77, 93, Row0, 21, 24)
  {
    assert SmallFactor(77) && !SmallFactor(79) && SmallFactor(81) && !SmallFactor(83) &&
      SmallFactor(85) && SmallFactor(87) && !SmallFactor(89) && SmallFactor(91);
  }

  lemma Row0At93()
    ensures Scan(93, 103, Row0, 24, 26)
  {
    assert SmallFactor(93) && SmallFactor(95) && !SmallFactor(97) && SmallFactor(99) &&
      !SmallFactor(101);
  }


  lemma Row0Scan()
    ensures Scan(61, 103, Row0, 17, 26)
  {
    Row0At93();
    Row0At77();
    ScanJoin(77, 8, 103, Row0, 21, 24, 26);
    Row0At61();
    ScanJoin(61, 8, 103, Row0, 17, 21, 26);
  }

  lemma Row0Lists()
    ensures ListsPrimes(Row0[17..], 61, 103)
  {
    Row0Scan();
    RowListsPrimes(Row0, 61, 103, 17);
  }

  lemma Row1At103()
    ensures Scan(103, 119, Row1, 0, 4)
  {
    assert !SmallFactor(103) && SmallFactor(105) && !SmallFactor(107) && !SmallFactor(109) &&
      SmallFactor(111) && !SmallFactor(113) && SmallFactor(115) && SmallFactor(117);
  }

  lemma Row1At119()
    ensures Scan(119, 135, Row1, 4, 6)
  {
    assert SmallFactor(119) && SmallFactor(121) && SmallFactor(123) && SmallFactor(125) &&
      !SmallFactor(127) && SmallFactor(129) && !SmallFactor(131) && SmallFactor(133);
  }

  lemma Row1At135()
    ensures Scan(135, 151, Row1, 6, 9)
  {
    assert SmallFactor(135) && !SmallFactor(137) && !SmallFactor(139) && SmallFactor(141) &&
      SmallFactor(143) && SmallFactor(145) && SmallFactor(147) && !SmallFactor(149);
  }

  lemma Row1At151()
    ensures Scan(151, 167, Row1, 9, 12)
  {
    assert !SmallFactor(151) && SmallFactor(153) && SmallFactor(155) && !SmallFactor(157) &&
      SmallFactor(159) && SmallFactor(161) && !SmallFactor(163) && SmallFactor(165);
  }

  lemma Row1At167()
    ensures Scan(167, 183, Row1, 12, 16)
  {
    assert !SmallFactor(167) && SmallFactor(169) && SmallFactor(171) && !SmallFactor(173) &&
      SmallFactor(175) && SmallFactor(177) && !SmallFactor(179) && !SmallFactor(181);
  }

  lemma Row1At183()
    ensures Scan(183, 199, Row1, 16, 19)
  {
    assert SmallFactor(183) && SmallFactor(185) && SmallFactor(187) && SmallFactor(189) &&
      !SmallFactor(191) && !SmallFactor(193) && SmallFactor(195) && !SmallFactor(197);
  }

  lemma Row1At199()
    ensures Scan(199, 211, Row1, 19, 20)
  {
    assert !SmallFactor(199) && SmallFactor(201) && SmallFactor(203) && SmallFactor(205) &&
      SmallFactor(207) && SmallFactor(209);
  }


  lemma Row1ScanFrom167()
    ensures Scan(167, 211, Row1, 12, 20)
  {
    Row1At199();
    Row1At183();
    ScanJoin(183, 8, 211, Row1, 16, 19, 20);
    Row1At167();
    ScanJoin(167, 8, 211, Row1, 12, 16, 20);
  }

  lemma Row1ScanFrom119()
    ensures Scan(119, 211, Row1, 4, 20)
  {
    Row1ScanFrom167();
    Row1At151();
    ScanJoin(151, 8, 211, Row1, 9, 12, 20);
    Row1At135();
    ScanJoin(135, 8, 211, Row1, 6, 9, 20);
    Row1At119();
    ScanJoin(119, 8, 211, Row1, 4, 6, 20);
  }

  lemma Row1Scan()
    ensures Scan(103, 211, Row1, 0, 20)
  {
    Row1ScanFrom119();
    Row1At103();
    ScanJoin(103, 8, 211, Row1, 0, 4, 20);
  }

  lemma Row1Lists()
    ensures ListsPrimes(Row1, 103, 211)
  {
    Row1Scan();
    RowListsPrimes(Row1, 103, 211, 0);
    assert Row1[0..] == Row1;
  }

  lemma Row2At211()
    ensures Scan(211, 227, Row2, 0, 2)
  {
    assert !SmallFactor(211) && SmallFactor(213) && SmallFactor(215) && SmallFactor(217) &&
      SmallFactor(219) && SmallFactor(221) && !SmallFactor(223) && SmallFactor(225);
  }

  lemma Row2At227()
    ensures Scan(227, 243, Row2, 2, 7)
  {
    assert !SmallFactor(227) && !SmallFactor(229) && SmallFactor(231) && !SmallFactor(233) &&
      SmallFactor(235) && SmallFactor(237) && !SmallFactor(239) && !SmallFactor(241);
  }

  lemma Row2At243()
    ensures Scan(243, 259, Row2, 7, 9)
  {
    assert SmallFactor(243) && SmallFactor(245) && SmallFactor(247) && SmallFactor(249) &&
      !SmallFactor(251) && SmallFactor(253) && SmallFactor(255) && !SmallFactor(257);
  }

  lemma Row2At259()
    ensures Scan(259, 275, Row2, 9, 12)
  {
    assert SmallFactor(259) && SmallFactor(261) && !SmallFactor(263) && SmallFactor(265) &&
      SmallFactor(267) && !SmallFactor(269) && !SmallFactor(271) && SmallFactor(273);
  }

  lemma Row2At275()
    ensures Scan(275, 291, Row2, 12, 15)
  {
    assert SmallFactor(275) && !SmallFactor(277) && SmallFactor(279) && !SmallFactor(281) &&
      !SmallFactor(283) && SmallFactor(285) && SmallFactor(287) && SmallFactor(289);
  }

  lemma Row2At291()
    ensures Scan(291, 307, Row2, 15, 16)
  {
    assert SmallFactor(291) && !SmallFactor(293) && SmallFactor(295) && SmallFactor(297) &&
      SmallFactor(299) && SmallFactor(301) && SmallFactor(303) && SmallFactor(305);
  }

  lemma Row2At307()
    ensures Scan(307, 323, Row2, 16, 20)
  {
    assert !SmallFactor(307) && SmallFactor(309) && !SmallFactor(311) && !SmallFactor(313) &&
      SmallFactor(315) && !SmallFactor(317) && SmallFactor(319) && SmallFactor(321);
  }

  lemma Row2At323()
    ensures Scan(323, 331, Row2, 20, 20)
  {
    assert SmallFactor(323) && SmallFactor(325) && SmallFactor(327) && SmallFactor(329);
  }


  lemma Row2ScanFrom291()
    ensures Scan(291, 331, Row2, 15, 20)
  {
    Row2At323();
    Row2At307();
    ScanJoin(307, 8, 331, Row2, 16, 20, 20);
    Row2At291();
    ScanJoin(291, 8, 331, Row2, 15, 16, 20);
  }

  lemma Row2ScanFrom243()
    ensures Scan(243, 331, Row2, 7, 20)
  {
    Row2ScanFrom291();
    Row2At275();
    ScanJoin(275, 8, 331, Row2, 12, 15, 20);
    Row2At259();
    ScanJoin(259, 8, 331, Row2, 9, 12, 20);
    Row2At243();
    ScanJoin(243, 8, 331, Row2, 7, 9, 20);
  }

  lemma Row2Scan()
    ensures Scan(211, 331, Row2, 0, 20)
  {
    Row2ScanFrom243();
    Row2At227();
    ScanJoin(227, 8, 331, Row2, 2, 7, 20);
    Row2At211();
    ScanJoin(211, 8, 331, Row2, 0, 2, 20);
  }

  lemma Row2Lists()
    ensures ListsPrimes(Row2, 211, 331)
  {
    Row2Scan();
    RowListsPrimes(Row2, 211, 331, 0);
    assert Row2[0..] == Row2;
  }

  lemma Row3At331()
    ensures Scan(331, 347, Row3, 0, 2)
  {
    assert !SmallFactor(331) && SmallFactor(333) && SmallFactor(335) && !SmallFactor(337) &&
      SmallFactor(339) && SmallFactor(341) && SmallFactor(343) && SmallFactor(345);
  }

  lemma Row3At347()
    ensures Scan(347, 363, Row3, 2, 6)
  {
    assert !SmallFactor(347) && !SmallFactor(349) && SmallFactor(351) && !SmallFactor(353) &&
      SmallFactor(355) && SmallFactor(357) && !SmallFactor(359) && SmallFactor(361);
  }

  lemma Row3At363()
    ensures Scan(363, 379, Row3, 6, 8)
  {
    assert SmallFactor(363) && SmallFactor(365) && !SmallFactor(367) && SmallFactor(369) &&
      SmallFactor(371) && !SmallFactor(373) && SmallFactor(375) && SmallFactor(377);
  }

  lemma Row3At379()
    ensures Scan(379, 395, Row3, 8, 11)
  {
    assert !SmallFactor(379) && SmallFactor(381) && !SmallFactor(383) && SmallFactor(385) &&
      SmallFactor(387) && !SmallFactor(389) && SmallFactor(391) && SmallFactor(393);
  }

  lemma Row3At395()
    ensures Scan(395, 411, Row3, 11, 14)
  {
    assert SmallFactor(395) && !SmallFactor(397) && SmallFactor(399) && !SmallFactor(401) &&
      SmallFactor(403) && SmallFactor(405) && SmallFactor(407) && !SmallFactor(409);
  }

  lemma Row3At411()
    ensures Scan(411, 427, Row3, 14, 16)
  {
    assert SmallFactor(411) && SmallFactor(413) && SmallFactor(415) && SmallFactor(417) &&
      !SmallFactor(419) && !SmallFactor(421) && SmallFactor(423) && SmallFactor(425);
  }

  lemma Row3At427()
    ensures Scan(427, 443, Row3, 16, 19)
  {
    assert SmallFactor(427) && SmallFactor(429) && !SmallFactor(431) && !SmallFactor(433) &&
      SmallFactor(435) && SmallFactor(437) && !SmallFactor(439) && SmallFactor(441);
  }

  lemma Row3At443()
    ensures Scan(443, 449, Row3, 19, 20)
  {
    assert !SmallFactor(443) && SmallFactor(445) && SmallFactor(447);
  }


  lemma Row3ScanFrom411()
    ensures Scan(411, 449, Row3, 14, 20)
  {
    Row3At443();
    Row3At427();
    ScanJoin(427, 8, 449, Row3, 16, 19, 20);
    Row3At411();
    ScanJoin(411, 8, 449, Row3, 14, 16, 20);
  }

  lemma Row3ScanFrom363()
    ensures Scan(363, 449, Row3, 6, 20)
  {
    Row3ScanFrom411();
    Row3At395();
    ScanJoin(395, 8, 449, Row3, 11, 14, 20);
    Row3At379();
    ScanJoin(379, 8, 449, Row3, 8, 11, 20);
    Row3At363();
    ScanJoin(363, 8, 449, Row3, 6, 8, 20);
  }

  lemma Row3Scan()
    ensures Scan(331, 449, Row3, 0, 20)
  {
    Row3ScanFrom363();
    Row3At347();
    ScanJoin(347, 8, 449, Row3, 2, 6, 20);
    Row3At331();
    ScanJoin(331, 8, 449, Row3, 0, 2, 20);
  }

  lemma Row3Lists()
    ensures ListsPrimes(Row3, 331, 449)
  {
    Row3Scan();
    RowListsPrimes(Row3, 331, 449, 0);
    assert Row3[0..] == Row3;
  }

  lemma Row4At449()
    ensures Scan(449, 465, Row4, 0, 4)
  {
    assert !SmallFactor(449) && SmallFactor(451) && SmallFactor(453) && SmallFactor(455) &&
      !SmallFactor(457) && SmallFactor(459) && !SmallFactor(461) && !SmallFactor(463);
  }

  lemma Row4At465()
    ensures Scan(465, 481, Row4, 4, 6)
  {
    assert SmallFactor(465) && !SmallFactor(467) && SmallFactor(469) && SmallFactor(471) &&
      SmallFactor(473) && SmallFactor(475) && SmallFactor(477) && !SmallFactor(479);
  }

  lemma Row4At481()
    ensures Scan(481, 497, Row4, 6, 8)
  {
    assert SmallFactor(481) && SmallFactor(483) && SmallFactor(485) && !SmallFactor(487) &&
      SmallFactor(489) && !SmallFactor(491) && SmallFactor(493) && SmallFactor(495);
  }

  lemma Row4At497()
    ensures Scan(497, 513, Row4, 8, 11)
  {
    assert SmallFactor(497) && !SmallFactor(499) && SmallFactor(501) && !SmallFactor(503) &&
      SmallFactor(505) && SmallFactor(507) && !SmallFactor(509) && SmallFactor(511);
  }

  lemma Row4At513()
    ensures Scan(513, 529, Row4, 11, 13)
  {
    assert SmallFactor(513) && SmallFactor(515) && SmallFactor(517) && SmallFactor(519) &&
      !SmallFactor(521) && !SmallFactor(523) && SmallFactor(525) && SmallFactor(527);
  }

  lemma Row4At529()
    ensures Scan(529, 545, Row4, 13, 14)
  {
    assert SmallFactor(529) && SmallFactor(531) && SmallFactor(533) && SmallFactor(535) &&
      SmallFactor(537) && SmallFactor(539) && !SmallFactor(541) && SmallFactor(543);
  }

  lemma Row4At545()
    ensures Scan(545, 561, Row4, 14, 16)
  {
    assert SmallFactor(545) && !SmallFactor(547) && SmallFactor(549) && SmallFactor(551) &&
      SmallFactor(553) && SmallFactor(555) && !SmallFactor(557) && SmallFactor(559);
  }

  lemma Row4At561()
    ensures Scan(561, 577, Row4, 16, 19)
  {
    assert SmallFactor(561) && !SmallFactor(563) && SmallFactor(565) && SmallFactor(567) &&
      !SmallFactor(569) && !SmallFactor(571) && SmallFactor(573) && SmallFactor(575);
  }

  lemma Row4At577()
    ensures Scan(577, 587, Row4, 19, 20)
  {
    assert !SmallFactor(577) && SmallFactor(579) && SmallFactor(581) && SmallFactor(583) &&
      SmallFactor(585);
  }


  lemma Row4ScanFrom545()
    ensures Scan(545, 587, Row4, 14, 20)
  {
    Row4At577();
    Row4At561();
    ScanJoin(561, 8, 587, Row4, 16, 19, 20);
    Row4At545();
    ScanJoin(545, 8, 587, Row4, 14, 16, 20);
  }

  lemma Row4ScanFrom497()
    ensures Scan(497, 587, Row4, 8, 20)
  {
    Row4ScanFrom545();
    Row4At529();
    ScanJoin(529, 8, 587, Row4, 13, 14, 20);
    Row4At513();
    ScanJoin(513, 8, 587, Row4, 11, 13, 20);
    Row4At497();
    ScanJoin(497, 8, 587, Row4, 8, 11, 20);
  }

  lemma Row4Scan()
    ensures Scan(449, 587, Row4, 0, 20)
  {
    Row4ScanFrom497();
    Row4At481();
    ScanJoin(481, 8, 587, Row4, 6, 8, 20);
    Row4At465();
    ScanJoin(465, 8, 587, Row4, 4, 6, 20);
    Row4At449();
    ScanJoin(449, 8, 587, Row4, 0, 4, 20);
  }

  lemma Row4Lists()
    ensures ListsPrimes(Row4, 449, 587)
  {
    Row4Scan();
    RowListsPrimes(Row4, 449, 587, 0);
    assert Row4[0..] == Row4;
  }

  lemma Row5At587()
    ensures Scan(587, 603, Row5, 0, 4)
  {
    assert !SmallFactor(587) && SmallFactor(589) && SmallFactor(591) && !SmallFactor(593) &&
      SmallFactor(595) && SmallFactor(597) && !SmallFactor(599) && !SmallFactor(601);
  }

  lemma Row5At603()
    ensures Scan(603, 619, Row5, 4, 7)
  {
    assert SmallFactor(603) && SmallFactor(605) && !SmallFactor(607) && SmallFactor(609) &&
      SmallFactor(611) && !SmallFactor(613) && SmallFactor(615) && !SmallFactor(617);
  }

  lemma Row5At619()
    ensures Scan(619, 635, Row5, 7, 9)
  {
    assert !SmallFactor(619) && SmallFactor(621) && SmallFactor(623) && SmallFactor(625) &&
      SmallFactor(627) && SmallFactor(629) && !SmallFactor(631) && SmallFactor(633);
  }

  lemma Row5At635()
    ensures Scan(635, 651, Row5, 9, 12)
  {
    assert SmallFactor(635) && SmallFactor(637) && SmallFactor(639) && !SmallFactor(641) &&
      !SmallFactor(643) && SmallFactor(645) && !SmallFactor(647) && SmallFactor(649);
  }

  lemma Row5At651()
    ensures Scan(651, 667, Row5, 12, 15)
  {
    assert SmallFactor(651) && !SmallFactor(653) && SmallFactor(655) && SmallFactor(657) &&
      !SmallFactor(659) && !SmallFactor(661) && SmallFactor(663) && SmallFactor(665);
  }

  lemma Row5At667()
    ensures Scan(667, 683, Row5, 15, 17)
  {
    assert SmallFactor(667) && SmallFactor(669) && SmallFactor(671) && !SmallFactor(673) &&
      SmallFactor(675) && !SmallFactor(677) && SmallFactor(679) && SmallFactor(681);
  }

  lemma Row5At683()
    ensures Scan(683, 699, Row5, 17, 19)
  {
    assert !SmallFactor(683) && SmallFactor(685) && SmallFactor(687) && SmallFactor(689) &&
      !SmallFactor(691) && SmallFactor(693) && SmallFactor(695) && SmallFactor(697);
  }

  lemma Row5At699()
    ensures Scan(699, 709, Row5, 19, 20)
  {
    assert SmallFactor(699) && !SmallFactor(701) && SmallFactor(703) && SmallFactor(705) &&
      SmallFactor(707);
  }


  lemma Row5ScanFrom667()
    ensures Scan(667, 709, Row5, 15, 20)
  {
    Row5At699();
    Row5At683();
    ScanJoin(683, 8, 709, Row5, 17, 19, 20);
    Row5At667();
    ScanJoin(667, 8, 709, Row5, 15, 17, 20);
  }

  lemma Row5ScanFrom619()
    ensures Scan(619, 709, Row5, 7, 20)
  {
    Row5ScanFrom667();
    Row5At651();
    ScanJoin(651, 8, 709, Row5, 12, 15, 20);
    Row5At635();
    ScanJoin(635, 8, 709, Row5, 9, 12, 20);
    Row5At619();
    ScanJoin(619, 8, 709, Row5, 7, 9, 20);
  }

  lemma Row5Scan()
    ensures Scan(587, 709, Row5, 0, 20)
  {
    Row5ScanFrom619();
    Row5At603();
    ScanJoin(603, 8, 709, Row5, 4, 7, 20);
    Row5At587();
    ScanJoin(587, 8, 709, Row5, 0, 4, 20);
  }

  lemma Row5Lists()
    ensures ListsPrimes(Row5, 587, 709)
  {
    Row5Scan();
    RowListsPrimes(Row5, 587, 709, 0);
    assert Row5[0..] == Row5;
  }

  lemma Row6At709()
    ensures Scan(709, 725, Row6, 0, 2)
  {
    assert !SmallFactor(709) && SmallFactor(711) && SmallFactor(713) && SmallFactor(715) &&
      SmallFactor(717) && !SmallFactor(719) && SmallFactor(721) && SmallFactor(723);
  }

  lemma Row6At725()
    ensures Scan(725, 741, Row6, 2, 5)
  {
    assert SmallFactor(725) && !SmallFactor(727) && SmallFactor(729) && SmallFactor(731) &&
      !SmallFactor(733) && SmallFactor(735) && SmallFactor(737) && !SmallFactor(739);
  }

  lemma Row6At741()
    ensures Scan(741, 757, Row6, 5, 7)
  {
    assert SmallFactor(741) && !SmallFactor(743) && SmallFactor(745) && SmallFactor(747) &&
      SmallFactor(749) && !SmallFactor(751) && SmallFactor(753) && SmallFactor(755);
  }

  lemma Row6At757()
    ensures Scan(757, 773, Row6, 7, 10)
  {
    assert !SmallFactor(757) && SmallFactor(759) && !SmallFactor(761) && SmallFactor(763) &&
      SmallFactor(765) && SmallFactor(767) && !SmallFactor(769) && SmallFactor(771);
  }

  lemma Row6At773()
    ensures Scan(773, 789, Row6, 10, 12)
  {
    assert !SmallFactor(773) && SmallFactor(775) && SmallFactor(777) && SmallFactor(779) &&
      SmallFactor(781) && SmallFactor(783) && SmallFactor(785) && !SmallFactor(787);
  }

  lemma Row6At789()
    ensures Scan(789, 805, Row6, 12, 13)
  {
    assert SmallFactor(789) && SmallFactor(791) && SmallFactor(793) && SmallFactor(795) &&
      !SmallFactor(797) && SmallFactor(799) && SmallFactor(801) && SmallFactor(803);
  }

  lemma Row6At805()
    ensures Scan(805, 821, Row6, 13, 15)
  {
    assert SmallFactor(805) && SmallFactor(807) && !SmallFactor(809) && !SmallFactor(811) &&
      SmallFactor(813) && SmallFactor(815) && SmallFactor(817) && SmallFactor(819);
  }

  lemma Row6At821()
    ensures Scan(821, 837, Row6, 15, 19)
  {
    assert !SmallFactor(821) && !SmallFactor(823) && SmallFactor(825) && !SmallFactor(827) &&
      !SmallFactor(829) && SmallFactor(831) && SmallFactor(833) && SmallFactor(835);
  }

  lemma Row6At837()
    ensures Scan(837, 853, Row6, 19, 20)
  {
    assert SmallFactor(837) && !SmallFactor(839) && SmallFactor(841) && SmallFactor(843) &&
      SmallFactor(845) && SmallFactor(847) && SmallFactor(849) && SmallFactor(851);
  }


  lemma Row6ScanFrom805()
    ensures Scan(805, 853, Row6, 13, 20)
  {
    Row6At837();
    Row6At821();
    ScanJoin(821, 8, 853, Row6, 15, 19, 20);
    Row6At805();
    ScanJoin(805, 8, 853, Row6, 13, 15, 20);
  }

  lemma Row6ScanFrom757()
    ensures Scan(757, 853, Row6, 7, 20)
  {
    Row6ScanFrom805();
    Row6At789();
    ScanJoin(789, 8, 853, Row6, 12, 13, 20);
    Row6At773();
    ScanJoin(773, 8, 853, Row6, 10, 12, 20);
    Row6At757();
    ScanJoin(757, 8, 853, Row6, 7, 10, 20);
  }

  lemma Row6Scan()
    ensures Scan(709, 853, Row6, 0, 20)
  {
    Row6ScanFrom757();
    Row6At741();
    ScanJoin(741, 8, 853, Row6, 5, 7, 20);
    Row6At725();
    ScanJoin(725, 8, 853, Row6, 2, 5, 20);
    Row6At709();
    ScanJoin(709, 8, 853, Row6, 0, 2, 20);
  }

  lemma Row6Lists()
    ensures ListsPrimes(Row6, 709, 853)
  {
    Row6Scan();
    RowListsPrimes(Row6, 709, 853, 0);
    assert Row6[0..] == Row6;
  }

  lemma Row7At853()
    ensures Scan(853, 869, Row7, 0, 4)
  {
    assert !SmallFactor(853) && SmallFactor(855) && !SmallFactor(857) && !SmallFactor(859) &&
      SmallFactor(861) && !SmallFactor(863) && SmallFactor(865) && SmallFactor(867);
  }

  lemma Row7At869()
    ensures Scan(869, 885, Row7, 4, 7)
  {
    assert SmallFactor(869) && SmallFactor(871) && SmallFactor(873) && SmallFactor(875) &&
      !SmallFactor(877) && SmallFactor(879) && !SmallFactor(881) && !SmallFactor(883);
  }

  lemma Row7At885()
    ensures Scan(885, 901, Row7, 7, 8)
  {
    assert SmallFactor(885) && !SmallFactor(887) && SmallFactor(889) && SmallFactor(891) &&
      SmallFactor(893) && SmallFactor(895) && SmallFactor(897) && SmallFactor(899);
  }

  lemma Row7At901()
    ensures Scan(901, 917, Row7, 8, 10)
  {
    assert SmallFactor(901) && SmallFactor(903) && SmallFactor(905) && !SmallFactor(907) &&
      SmallFactor(909) && !SmallFactor(911) && SmallFactor(913) && SmallFactor(915);
  }

  lemma Row7At917()
    ensures Scan(917, 933, Row7, 10, 12)
  {
    assert SmallFactor(917) && !SmallFactor(919) && SmallFactor(921) && SmallFactor(923) &&
      SmallFactor(925) && SmallFactor(927) && !SmallFactor(929) && SmallFactor(931);
  }

  lemma Row7At933()
    ensures Scan(933, 949, Row7, 12, 15)
  {
    assert SmallFactor(933) && SmallFactor(935) && !SmallFactor(937) && SmallFactor(939) &&
      !SmallFactor(941) && SmallFactor(943) && SmallFactor(945) && !SmallFactor(947);
  }

  lemma Row7At949()
    ensures Scan(949, 965, Row7, 15, 16)
  {
    assert SmallFactor(949) && SmallFactor(951) && !SmallFactor(953) && SmallFactor(955) &&
      SmallFactor(957) && SmallFactor(959) && SmallFactor(961) && SmallFactor(963);
  }

  lemma Row7At965()
    ensures Scan(965, 981, Row7, 16, 19)
  {
    assert SmallFactor(965) && !SmallFactor(967) && SmallFactor(969) && !SmallFactor(971) &&
      SmallFactor(973) && SmallFactor(975) && !SmallFactor(977) && SmallFactor(979);
  }

  lemma Row7At981()
    ensures Scan(981, 991, Row7, 19, 20)
  {
    assert SmallFactor(981) && !SmallFactor(983) && SmallFactor(985) && SmallFactor(987) &&
      SmallFactor(989);
  }


  lemma Row7ScanFrom949()
    ensures Scan(949, 991, Row7, 15, 20)
  {
    Row7At981();
    Row7At965();
    ScanJoin(965, 8, 991, Row7, 16, 19, 20);
    Row7At949();
    ScanJoin(949, 8, 991, Row7, 15, 16, 20);
  }

  lemma Row7ScanFrom901()
    ensures Scan(901, 991, Row7, 8, 20)
  {
    Row7ScanFrom949();
    Row7At933();
    ScanJoin(933, 8, 991, Row7, 12, 15, 20);
    Row7At917();
    ScanJoin(917, 8, 991, Row7, 10, 12, 20);
    Row7At901();
    ScanJoin(901, 8, 991, Row7, 8, 10, 20);
  }

  lemma Row7Scan()
    ensures Scan(853, 991, Row7, 0, 20)
  {
    Row7ScanFrom901();
    Row7At885();
    ScanJoin(885, 8, 991, Row7, 7, 8, 20);
    Row7At869();
    ScanJoin(869, 8, 991, Row7, 4, 7, 20);
    Row7At853();
    ScanJoin(853, 8, 991, Row7, 0, 4, 20);
  }

  lemma Row7Lists()
    ensures ListsPrimes(Row7, 853, 991)
  {
    Row7Scan();
    RowListsPrimes(Row7, 853, 991, 0);
    assert Row7[0..] == Row7;
  }

  lemma Row8At991()
    ensures Scan(991, 1007, Row8, 0, 2)
  {
    assert !SmallFactor(991) && SmallFactor(993) && SmallFactor(995) && !SmallFactor(997) &&
      SmallFactor(999) && SmallFactor(1001) && SmallFactor(1003) && SmallFactor(1005);
  }

  lemma Row8At1007()
    ensures Scan(1007, 1023, Row8, 2, 6)
  {
    assert SmallFactor(1007) && !SmallFactor(1009) && SmallFactor(1011) && !SmallFactor(1013) &&
      SmallFactor(1015) && SmallFactor(1017) && !SmallFactor(1019) && !SmallFactor(1021);
  }

  lemma Row8At1023()
    ensures Scan(1023, 1039, Row8, 6, 8)
  {
    assert SmallFactor(1023) && SmallFactor(1025) && SmallFactor(1027) && SmallFactor(1029) &&
      !SmallFactor(1031) && !SmallFactor(1033) && SmallFactor(1035) && SmallFactor(1037);
  }

  lemma Row8At1039()
    ensures Scan(1039, 1055, Row8, 8, 11)
  {
    assert !SmallFactor(1039) && SmallFactor(1041) && SmallFactor(1043) && SmallFactor(1045) &&
      SmallFactor(1047) && !SmallFactor(1049) && !SmallFactor(1051) && SmallFactor(1053);
  }

  lemma Row8At1055()
    ensures Scan(1055, 1071, Row8, 11, 14)
  {
    assert SmallFactor(1055) && SmallFactor(1057) && SmallFactor(1059) && !SmallFactor(1061) &&
      !SmallFactor(1063) && SmallFactor(1065) && SmallFactor(1067) && !SmallFactor(1069);
  }

  lemma Row8At1071()
    ensures Scan(1071, 1087, Row8, 14, 14)
  {
    assert SmallFactor(1071) && SmallFactor(1073) && SmallFactor(1075) && SmallFactor(1077) &&
      SmallFactor(1079) && SmallFactor(1081) && SmallFactor(1083) && SmallFactor(1085);
  }

  lemma Row8At1087()
    ensures Scan(1087, 1097, Row8, 14, 17)
  {
    assert !SmallFactor(1087) && SmallFactor(1089) && !SmallFactor(1091) && !SmallFactor(1093) &&
      SmallFactor(1095);
  }


  lemma Row8ScanFrom1055()
    ensures Scan(1055, 1097, Row8, 11, 17)
  {
    Row8At1087();
    Row8At1071();
    ScanJoin(1071, 8, 1097, Row8, 14, 14, 17);
    Row8At1055();
    ScanJoin(1055, 8, 1097, Row8, 11, 14, 17);
  }

  lemma Row8ScanFrom1007()
    ensures Scan(1007, 1097, Row8, 2, 17)
  {
    Row8ScanFrom1055();
    Row8At1039();
    ScanJoin(1039, 8, 1097, Row8, 8, 11, 17);
    Row8At1023();
    ScanJoin(1023, 8, 1097, Row8, 6, 8, 17);
    Row8At1007();
    ScanJoin(1007, 8, 1097, Row8, 2, 6, 17);
  }

  lemma Row8Scan()
    ensures Scan(991, 1097, Row8, 0, 17)
  {
    Row8ScanFrom1007();
    Row8At991();
    ScanJoin(991, 8, 1097, Row8, 0, 2, 17);
  }

  lemma Row8Lists()
    ensures ListsPrimes(Row8, 991, 1097)
  {
    Row8Scan();
    RowListsPrimes(Row8, 991, 1097, 0);
    assert Row8[0..] == Row8;
  }

  lemma Row9At1097()
    ensures Scan(1097, 1113, Row9, 0, 3)
  {
    assert !SmallFactor(1097) && SmallFactor(1099) && SmallFactor(1101) && !SmallFactor(1103) &&
      SmallFactor(1105) && SmallFactor(1107) && !SmallFactor(1109) && SmallFactor(1111);
  }

  lemma Row9At1113()
    ensures Scan(1113, 1129, Row9, 3, 5)
  {
    assert SmallFactor(1113) && SmallFactor(1115) && !SmallFactor(1117) && SmallFactor(1119) &&
      SmallFactor(1121) && !SmallFactor(1123) && SmallFactor(1125) && SmallFactor(1127);
  }

  lemma Row9At1129()
    ensures Scan(1129, 1145, Row9, 5, 6)
  {
    assert !SmallFactor(1129) && SmallFactor(1131) && SmallFactor(1133) && SmallFactor(1135) &&
      SmallFactor(1137) && SmallFactor(1139) && SmallFactor(1141) && SmallFactor(1143);
  }

  lemma Row9At1145()
    ensures Scan(1145, 1161, Row9, 6, 8)
  {
    assert SmallFactor(1145) && SmallFactor(1147) && SmallFactor(1149) && !SmallFactor(1151) &&
      !SmallFactor(1153) && SmallFactor(1155) && SmallFactor(1157) && SmallFactor(1159);
  }

  lemma Row9At1161()
    ensures Scan(1161, 1177, Row9, 8, 10)
  {
    assert SmallFactor(1161) && !SmallFactor(1163) && SmallFactor(1165) && SmallFactor(1167) &&
      SmallFactor(1169) && !SmallFactor(1171) && SmallFactor(1173) && SmallFactor(1175);
  }

  lemma Row9At1177()
    ensures Scan(1177, 1193, Row9, 10, 12)
  {
    assert SmallFactor(1177) && SmallFactor(1179) && !SmallFactor(1181) && SmallFactor(1183) &&
      SmallFactor(1185) && !SmallFactor(1187) && SmallFactor(1189) && SmallFactor(1191);
  }

  lemma Row9At1193()
    ensures Scan(1193, 1209, Row9, 12, 14)
  {
    assert !SmallFactor(1193) && SmallFactor(1195) && SmallFactor(1197) && SmallFactor(1199) &&
      !SmallFactor(1201) && SmallFactor(1203) && SmallFactor(1205) && SmallFactor(1207);
  }

  lemma Row9At1209()
    ensures Scan(1209, 1225, Row9, 14, 17)
  {
    assert SmallFactor(1209) && SmallFactor(1211) && !SmallFactor(1213) && SmallFactor(1215) &&
      !SmallFactor(1217) && SmallFactor(1219) && SmallFactor(1221) && !SmallFactor(1223);
  }

  lemma Row9At1225()
    ensures Scan(1225, 1229, Row9, 17, 17)
  {
    assert SmallFactor(1225) && SmallFactor(1227);
  }


  lemma Row9ScanFrom1193()
    ensures Scan(1193, 1229, Row9, 12, 17)
  {
    Row9At1225();
    Row9At1209();
    ScanJoin(1209, 8, 1229, Row9, 14, 17, 17);
    Row9At1193();
    ScanJoin(1193, 8, 1229, Row9, 12, 14, 17);
  }

  lemma Row9ScanFrom1145()
    ensures Scan(1145, 1229, Row9, 6, 17)
  {
    Row9ScanFrom1193();
    Row9At1177();
    ScanJoin(1177, 8, 1229, Row9, 10, 12, 17);
    Row9At1161();
    ScanJoin(1161, 8, 1229, Row9, 8, 10, 17);
    Row9At1145();
    ScanJoin(1145, 8, 1229, Row9, 6, 8, 17);
  }

  lemma Row9Scan()
    ensures Scan(1097, 1229, Row9, 0, 17)
  {
    Row9ScanFrom1145();
    Row9At1129();
    ScanJoin(1129, 8, 1229, Row9, 5, 6, 17);
    Row9At1113();
    ScanJoin(1113, 8, 1229, Row9, 3, 5, 17);
    Row9At1097();
    ScanJoin(1097, 8, 1229, Row9, 0, 3, 17);
  }

  lemma Row9Lists()
    ensures ListsPrimes(Row9, 1097, 1229)
  {
    Row9Scan();
    RowListsPrimes(Row9, 1097, 1229, 0);
    assert Row9[0..] == Row9;
  }

  lemma Row10At1229()
    ensures Scan(1229, 1245, Row10, 0, 3)
  {
    assert !SmallFactor(1229) && !SmallFactor(1231) && SmallFactor(1233) && SmallFactor(1235) &&
      !SmallFactor(1237) && SmallFactor(1239) && SmallFactor(1241) && SmallFactor(1243);
  }

  lemma Row10At1245()
    ensures Scan(1245, 1261, Row10, 3, 5)
  {
    assert SmallFactor(1245) && SmallFactor(1247) && !SmallFactor(1249) && SmallFactor(1251) &&
      SmallFactor(1253) && SmallFactor(1255) && SmallFactor(1257) && !SmallFactor(1259);
  }

  lemma Row10At1261()
    ensures Scan(1261, 1277, Row10, 5, 5)
  {
    assert SmallFactor(1261) && SmallFactor(1263) && SmallFactor(1265) && SmallFactor(1267) &&
      SmallFactor(1269) && SmallFactor(1271) && SmallFactor(1273) && SmallFactor(1275);
  }

  lemma Row10At1277()
    ensures Scan(1277, 1293, Row10, 5, 10)
  {
    assert !SmallFactor(1277) && !SmallFactor(1279) && SmallFactor(1281) && !SmallFactor(1283) &&
      SmallFactor(1285) && SmallFactor(1287) && !SmallFactor(1289) && !SmallFactor(1291);
  }

  lemma Row10At1293()
    ensures Scan(1293, 1309, Row10, 10, 14)
  {
    assert SmallFactor(1293) && SmallFactor(1295) && !SmallFactor(1297) && SmallFactor(1299) &&
      !SmallFactor(1301) && !SmallFactor(1303) && SmallFactor(1305) && !SmallFactor(1307);
  }

  lemma Row10At1309()
    ensures Scan(1309, 1325, Row10, 14, 16)
  {
    assert SmallFactor(1309) && SmallFactor(1311) && SmallFactor(1313) && SmallFactor(1315) &&
      SmallFactor(1317) && !SmallFactor(1319) && !SmallFactor(1321) && SmallFactor(1323);
  }

  lemma Row10At1325()
    ensures Scan(1325, 1341, Row10, 16, 17)
  {
    assert SmallFactor(1325) && !SmallFactor(1327) && SmallFactor(1329) && SmallFactor(1331) &&
      SmallFactor(1333) && SmallFactor(1335) && SmallFactor(1337) && SmallFactor(1339);
  }

  lemma Row10At1341()
    ensures Scan(1341, 1357, Row10, 17, 17)
  {
    assert SmallFactor(1341) && SmallFactor(1343) && SmallFactor(1345) && SmallFactor(1347) &&
      SmallFactor(1349) && SmallFactor(1351) && SmallFactor(1353) && SmallFactor(1355);
  }

  lemma Row10At1357()
    ensures Scan(1357, 1361, Row10, 17, 17)
  {
    assert SmallFactor(1357) && SmallFactor(1359);
  }


  lemma Row10ScanFrom1325()
    ensures Scan(1325, 1361, Row10, 16, 17)
  {
    Row10At1357();
    Row10At1341();
    ScanJoin(1341, 8, 1361, Row10, 17, 17, 17);
    Row10At1325();
    ScanJoin(1325, 8, 1361, Row10, 16, 17, 17);
  }

  lemma Row10ScanFrom1277()
    ensures Scan(1277, 1361, Row10, 5, 17)
  {
    Row10ScanFrom1325();
    Row10At1309();
    ScanJoin(1309, 8, 1361, Row10, 14, 16, 17);
    Row10At1293();
    ScanJoin(1293, 8, 1361, Row10, 10, 14, 17);
    Row10At1277();
    ScanJoin(1277, 8, 1361, Row10, 5, 10, 17);
  }

  lemma Row10Scan()
    ensures Scan(1229, 1361, Row10, 0, 17)
  {
    Row10ScanFrom1277();
    Row10At1261();
    ScanJoin(1261, 8, 1361, Row10, 5, 5, 17);
    Row10At1245();
    ScanJoin(1245, 8, 1361, Row10, 3, 5, 17);
    Row10At1229();
    ScanJoin(1229, 8, 1361, Row10, 0, 3, 17);
  }

  lemma Row10Lists()
    ensures ListsPrimes(Row10, 1229, 1361)
  {
    Row10Scan();
    RowListsPrimes(Row10, 1229, 1361, 0);
    assert Row10[0..] == Row10;
  }

  lemma Row11At1361()
    ensures Scan(1361, 1377, Row11, 0, 3)
  {
    assert !SmallFactor(1361) && SmallFactor(1363) && SmallFactor(1365) && !SmallFactor(1367) &&
      SmallFactor(1369) && SmallFactor(1371) && !SmallFactor(1373) && SmallFactor(1375);
  }

  lemma Row11At1377()
    ensures Scan(1377, 1393, Row11, 3, 4)
  {
    assert SmallFactor(1377) && SmallFactor(1379) && !SmallFactor(1381) && SmallFactor(1383) &&
      SmallFactor(1385) && SmallFactor(1387) && SmallFactor(1389) && SmallFactor(1391);
  }

  lemma Row11At1393()
    ensures Scan(1393, 1409, Row11, 4, 5)
  {
    assert SmallFactor(1393) && SmallFactor(1395) && SmallFactor(1397) && !SmallFactor(1399) &&
      SmallFactor(1401) && SmallFactor(1403) && SmallFactor(1405) && SmallFactor(1407);
  }

  lemma Row11At1409()
    ensures Scan(1409, 1425, Row11, 5, 7)
  {
    assert !SmallFactor(1409) && SmallFactor(1411) && SmallFactor(1413) && SmallFactor(1415) &&
      SmallFactor(1417) && SmallFactor(1419) && SmallFactor(1421) && !SmallFactor(1423);
  }

  lemma Row11At1425()
    ensures Scan(1425, 1441, Row11, 7, 11)
  {
    assert SmallFactor(1425) && !SmallFactor(1427) && !SmallFactor(1429) && SmallFactor(1431) &&
      !SmallFactor(1433) && SmallFactor(1435) && SmallFactor(1437) && !SmallFactor(1439);
  }

  lemma Row11At1441()
    ensures Scan(1441, 1457, Row11, 11, 14)
  {
    assert SmallFactor(1441) && SmallFactor(1443) && SmallFactor(1445) && !SmallFactor(1447) &&
      SmallFactor(1449) && !SmallFactor(1451) && !SmallFactor(1453) && SmallFactor(1455);
  }

  lemma Row11At1457()
    ensures Scan(1457, 1473, Row11, 14, 16)
  {
    assert SmallFactor(1457) && !SmallFactor(1459) && SmallFactor(1461) && SmallFactor(1463) &&
      SmallFactor(1465) && SmallFactor(1467) && SmallFactor(1469) && !SmallFactor(1471);
  }

  lemma Row11At1473()
    ensures Scan(1473, 1483, Row11, 16, 17)
  {
    assert SmallFactor(1473) && SmallFactor(1475) && SmallFactor(1477) && SmallFactor(1479) &&
      !SmallFactor(1481);
  }


  lemma Row11ScanFrom1441()
    ensures Scan(1441, 1483, Row11, 11, 17)
  {
    Row11At1473();
    Row11At1457();
    ScanJoin(1457, 8, 1483, Row11, 14, 16, 17);
    Row11At1441();
    ScanJoin(1441, 8, 1483, Row11, 11, 14, 17);
  }

  lemma Row11ScanFrom1393()
    ensures Scan(1393, 1483, Row11, 4, 17)
  {
    Row11ScanFrom1441();
    Row11At1425();
    ScanJoin(1425, 8, 1483, Row11, 7, 11, 17);
    Row11At1409();
    ScanJoin(1409, 8, 1483, Row11, 5, 7, 17);
    Row11At1393();
    ScanJoin(1393, 8, 1483, Row11, 4, 5, 17);
  }

  lemma Row11Scan()
    ensures Scan(1361, 1483, Row11, 0, 17)
  {
    Row11ScanFrom1393();
    Row11At1377();
    ScanJoin(1377, 8, 1483, Row11, 3, 4, 17);
    Row11At1361();
    ScanJoin(1361, 8, 1483, Row11, 0, 3, 17);
  }

  lemma Row11Lists()
    ensures ListsPrimes(Row11, 1361, 1483)
  {
    Row11Scan();
    RowListsPrimes(Row11, 1361, 1483, 0);
    assert Row11[0..] == Row11;
  }

  lemma Row12At1483()
    ensures Scan(1483, 1499, Row12, 0, 4)
  {
    assert !SmallFactor(1483) && SmallFactor(1485) && !SmallFactor(1487) && !SmallFactor(1489) &&
      SmallFactor(1491) && !SmallFactor(1493) && SmallFactor(1495) && SmallFactor(1497);
  }

  lemma Row12At1499()
    ensures Scan(1499, 1515, Row12, 4, 6)
  {
    assert !SmallFactor(1499) && SmallFactor(1501) && SmallFactor(1503) && SmallFactor(1505) &&
      SmallFactor(1507) && SmallFactor(1509) && !SmallFactor(1511) && SmallFactor(1513);
  }

  lemma Row12At1515()
    ensures Scan(1515, 1531, Row12, 6, 7)
  {
    assert SmallFactor(1515) && SmallFactor(1517) && SmallFactor(1519) && SmallFactor(1521) &&
      !SmallFactor(1523) && SmallFactor(1525) && SmallFactor(1527) && SmallFactor(1529);
  }

  lemma Row12At1531()
    ensures Scan(1531, 1547, Row12, 7, 9)
  {
    assert !SmallFactor(1531) && SmallFactor(1533) && SmallFactor(1535) && SmallFactor(1537) &&
      SmallFactor(1539) && SmallFactor(1541) && !SmallFactor(1543) && SmallFactor(1545);
  }

  lemma Row12At1547()
    ensures Scan(1547, 1563, Row12, 9, 12)
  {
    assert SmallFactor(1547) && !SmallFactor(1549) && SmallFactor(1551) && !SmallFactor(1553) &&
      SmallFactor(1555) && SmallFactor(1557) && !SmallFactor(1559) && SmallFactor(1561);
  }

  lemma Row12At1563()
    ensures Scan(1563, 1579, Row12, 12, 14)
  {
    assert SmallFactor(1563) && SmallFactor(1565) && !SmallFactor(1567) && SmallFactor(1569) &&
      !SmallFactor(1571) && SmallFactor(1573) && SmallFactor(1575) && SmallFactor(1577);
  }

  lemma Row12At1579()
    ensures Scan(1579, 1595, Row12, 14, 16)
  {
    assert !SmallFactor(1579) && SmallFactor(1581) && !SmallFactor(1583) && SmallFactor(1585) &&
      SmallFactor(1587) && SmallFactor(1589) && SmallFactor(1591) && SmallFactor(1593);
  }

  lemma Row12At1595()
    ensures Scan(1595, 1601, Row12, 16, 17)
  {
    assert SmallFactor(1595) && !SmallFactor(1597) && SmallFactor(1599);
  }


  lemma Row12ScanFrom1563()
    ensures Scan(1563, 1601, Row12, 12, 17)
  {
    Row12At1595();
    Row12At1579();
    ScanJoin(1579, 8, 1601, Row12, 14, 16, 17);
    Row12At1563();
    ScanJoin(1563, 8, 1601, Row12, 12, 14, 17);
  }

  lemma Row12ScanFrom1515()
    ensures Scan(1515, 1601, Row12, 6, 17)
  {
    Row12ScanFrom1563();
    Row12At1547();
    ScanJoin(1547, 8, 1601, Row12, 9, 12, 17);
    Row12At1531();
    ScanJoin(1531, 8, 1601, Row12, 7, 9, 17);
    Row12At1515();
    ScanJoin(1515, 8, 1601, Row12, 6, 7, 17);
  }

  lemma Row12Scan()
    ensures Scan(1483, 1601, Row12, 0, 17)
  {
    Row12ScanFrom1515();
    Row12At1499();
    ScanJoin(1499, 8, 1601, Row12, 4, 6, 17);
    Row12At1483();
    ScanJoin(1483, 8, 1601, Row12, 0, 4, 17);
  }

  lemma Row12Lists()
    ensures ListsPrimes(Row12, 1483, 1601)
  {
    Row12Scan();
    RowListsPrimes(Row12, 1483, 1601, 0);
    assert Row12[0..] == Row12;
  }

  lemma Row13At1601()
    ensures Scan(1601, 1617, Row13, 0, 4)
  {
    assert !SmallFactor(1601) && SmallFactor(1603) && SmallFactor(1605) && !SmallFactor(1607) &&
      !SmallFactor(1609) && SmallFactor(1611) && !SmallFactor(1613) && SmallFactor(1615);
  }

  lemma Row13At1617()
    ensures Scan(1617, 1633, Row13, 4, 7)
  {
    assert SmallFactor(1617) && !SmallFactor(1619) && !SmallFactor(1621) && SmallFactor(1623) &&
      SmallFactor(1625) && !SmallFactor(1627) && SmallFactor(1629) && SmallFactor(1631);
  }

  lemma Row13At1633()
    ensures Scan(1633, 1649, Row13, 7, 8)
  {
    assert SmallFactor(1633) && SmallFactor(1635) && !SmallFactor(1637) && SmallFactor(1639) &&
      SmallFactor(1641) && SmallFactor(1643) && SmallFactor(1645) && SmallFactor(1647);
  }

  lemma Row13At1649()
    ensures Scan(1649, 1665, Row13, 8, 10)
  {
    assert SmallFactor(1649) && SmallFactor(1651) && SmallFactor(1653) && SmallFactor(1655) &&
      !SmallFactor(1657) && SmallFactor(1659) && SmallFactor(1661) && !SmallFactor(1663);
  }

  lemma Row13At1665()
    ensures Scan(1665, 1681, Row13, 10, 12)
  {
    assert SmallFactor(1665) && !SmallFactor(1667) && !SmallFactor(1669) && SmallFactor(1671) &&
      SmallFactor(1673) && SmallFactor(1675) && SmallFactor(1677) && SmallFactor(1679);
  }

  lemma Row13At1681()
    ensures Scan(1681, 1697, Row13, 12, 13)
  {
    assert SmallFactor(1681) && SmallFactor(1683) && SmallFactor(1685) && SmallFactor(1687) &&
      SmallFactor(1689) && SmallFactor(1691) && !SmallFactor(1693) && SmallFactor(1695);
  }

  lemma Row13At1697()
    ensures Scan(1697, 1713, Row13, 13, 16)
  {
    assert !SmallFactor(1697) && !SmallFactor(1699) && SmallFactor(1701) && SmallFactor(1703) &&
      SmallFactor(1705) && SmallFactor(1707) && !SmallFactor(1709) && SmallFactor(1711);
  }

  lemma Row13At1713()
    ensures Scan(1713, 1723, Row13, 16, 17)
  {
    assert SmallFactor(1713) && SmallFactor(1715) && SmallFactor(1717) && SmallFactor(1719) &&
      !SmallFactor(1721);
  }


  lemma Row13ScanFrom1681()
    ensures Scan(1681, 1723, Row13, 12, 17)
  {
    Row13At1713();
    Row13At1697();
    ScanJoin(1697, 8, 1723, Row13, 13, 16, 17);
    Row13At1681();
    ScanJoin(1681, 8, 1723, Row13, 12, 13, 17);
  }

  lemma Row13ScanFrom1633()
    ensures Scan(1633, 1723, Row13, 7, 17)
  {
    Row13ScanFrom1681();
    Row13At1665();
    ScanJoin(1665, 8, 1723, Row13, 10, 12, 17);
    Row13At1649();
    ScanJoin(1649, 8, 1723, Row13, 8, 10, 17);
    Row13At1633();
    ScanJoin(1633, 8, 1723, Row13, 7, 8, 17);
  }

  lemma Row13Scan()
    ensures Scan(1601, 1723, Row13, 0, 17)
  {
    Row13ScanFrom1633();
    Row13At1617();
    ScanJoin(1617, 8, 1723, Row13, 4, 7, 17);
    Row13At1601();
    ScanJoin(1601, 8, 1723, Row13, 0, 4, 17);
  }

  lemma Row13Lists()
    ensures ListsPrimes(Row13, 1601, 1723)
  {
    Row13Scan();
    RowListsPrimes(Row13, 1601, 1723, 0);
    assert Row13[0..] == Row13;
  }

  lemma Row14At1723()
    ensures Scan(1723, 1739, Row14, 0, 2)
  {
    assert !SmallFactor(1723) && SmallFactor(1725) && SmallFactor(1727) && SmallFactor(1729) &&
      SmallFactor(1731) && !SmallFactor(1733) && SmallFactor(1735) && SmallFactor(1737);
  }

  lemma Row14At1739()
    ensures Scan(1739, 1755, Row14, 2, 5)
  {
    assert SmallFactor(1739) && !SmallFactor(1741) && SmallFactor(1743) && SmallFactor(1745) &&
      !SmallFactor(1747) && SmallFactor(1749) && SmallFactor(1751) && !SmallFactor(1753);
  }

  lemma Row14At1755()
    ensures Scan(1755, 1771, Row14, 5, 6)
  {
    assert SmallFactor(1755) && SmallFactor(1757) && !SmallFactor(1759) && SmallFactor(1761) &&
      SmallFactor(1763) && SmallFactor(1765) && SmallFactor(1767) && SmallFactor(1769);
  }

  lemma Row14At1771()
    ensures Scan(1771, 1787, Row14, 6, 8)
  {
    assert SmallFactor(1771) && SmallFactor(1773) && SmallFactor(1775) && !SmallFactor(1777) &&
      SmallFactor(1779) && SmallFactor(1781) && !SmallFactor(1783) && SmallFactor(1785);
  }

  lemma Row14At1787()
    ensures Scan(1787, 1803, Row14, 8, 11)
  {
    assert !SmallFactor(1787) && !SmallFactor(1789) && SmallFactor(1791) && SmallFactor(1793) &&
      SmallFactor(1795) && SmallFactor(1797) && SmallFactor(1799) && !SmallFactor(1801);
  }

  lemma Row14At1803()
    ensures Scan(1803, 1819, Row14, 11, 12)
  {
    assert SmallFactor(1803) && SmallFactor(1805) && SmallFactor(1807) && SmallFactor(1809) &&
      !SmallFactor(1811) && SmallFactor(1813) && SmallFactor(1815) && SmallFactor(1817);
  }

  lemma Row14At1819()
    ensures Scan(1819, 1835, Row14, 12, 14)
  {
    assert SmallFactor(1819) && SmallFactor(1821) && !SmallFactor(1823) && SmallFactor(1825) &&
      SmallFactor(1827) && SmallFactor(1829) && !SmallFactor(1831) && SmallFactor(1833);
  }

  lemma Row14At1835()
    ensures Scan(1835, 1851, Row14, 14, 15)
  {
    assert SmallFactor(1835) && SmallFactor(1837) && SmallFactor(1839) && SmallFactor(1841) &&
      SmallFactor(1843) && SmallFactor(1845) && !SmallFactor(1847) && SmallFactor(1849);
  }

  lemma Row14At1851()
    ensures Scan(1851, 1867, Row14, 15, 16)
  {
    assert SmallFactor(1851) && SmallFactor(1853) && SmallFactor(1855) && SmallFactor(1857) &&
      SmallFactor(1859) && !SmallFactor(1861) && SmallFactor(1863) && SmallFactor(1865);
  }

  lemma Row14At1867()
    ensures Scan(1867, 1871, Row14, 16, 17)
  {
    assert !SmallFactor(1867) && SmallFactor(1869);
  }


  lemma Row14ScanFrom1835()
    ensures Scan(1835, 1871, Row14, 14, 17)
  {
    Row14At1867();
    Row14At1851();
    ScanJoin(1851, 8, 1871, Row14, 15, 16, 17);
    Row14At1835();
    ScanJoin(1835, 8, 1871, Row14, 14, 15, 17);
  }

  lemma Row14ScanFrom1787()
    ensures Scan(1787, 1871, Row14, 8, 17)
  {
    Row14ScanFrom1835();
    Row14At1819();
    ScanJoin(1819, 8, 1871, Row14, 12, 14, 17);
    Row14At1803();
    ScanJoin(1803, 8, 1871, Row14, 11, 12, 17);
    Row14At1787();
    ScanJoin(1787, 8, 1871, Row14, 8, 11, 17);
  }

  lemma Row14ScanFrom1739()
    ensures Scan(1739, 1871, Row14, 2, 17)
  {
    Row14ScanFrom1787();
    Row14At1771();
    ScanJoin(1771, 8, 1871, Row14, 6, 8, 17);
    Row14At1755();
    ScanJoin(1755, 8, 1871, Row14, 5, 6, 17);
    Row14At1739();
    ScanJoin(1739, 8, 1871, Row14, 2, 5, 17);
  }

  lemma Row14Scan()
    ensures Scan(1723, 1871, Row14, 0, 17)
  {
    Row14ScanFrom1739();
    Row14At1723();
    ScanJoin(1723, 8, 1871, Row14, 0, 2, 17);
  }

  lemma Row14Lists()
    ensures ListsPrimes(Row14, 1723, 1871)
  {
    Row14Scan();
    RowListsPrimes(Row14, 1723, 1871, 0);
    assert Row14[0..] == Row14;
  }

  lemma Row15At1871()
    ensures Scan(1871, 1887, Row15, 0, 4)
  {
    assert !SmallFactor(1871) && !SmallFactor(1873) && SmallFactor(1875) && !SmallFactor(1877) &&
      !SmallFactor(1879) && SmallFactor(1881) && SmallFactor(1883) && SmallFactor(1885);
  }

  lemma Row15At1887()
    ensures Scan(1887, 1903, Row15, 4, 6)
  {
    assert SmallFactor(1887) && !SmallFactor(1889) && SmallFactor(1891) && SmallFactor(1893) &&
      SmallFactor(1895) && SmallFactor(1897) && SmallFactor(1899) && !SmallFactor(1901);
  }

  lemma Row15At1903()
    ensures Scan(1903, 1919, Row15, 6, 8)
  {
    assert SmallFactor(1903) && SmallFactor(1905) && !SmallFactor(1907) && SmallFactor(1909) &&
      SmallFactor(1911) && !SmallFactor(1913) && SmallFactor(1915) && SmallFactor(1917);
  }

  lemma Row15At1919()
    ensures Scan(1919, 1935, Row15, 8, 10)
  {
    assert SmallFactor(1919) && SmallFactor(1921) && SmallFactor(1923) && SmallFactor(1925) &&
      SmallFactor(1927) && SmallFactor(1929) && !SmallFactor(1931) && !SmallFactor(1933);
  }

  lemma Row15At1935()
    ensures Scan(1935, 1951, Row15, 10, 11)
  {
    assert SmallFactor(1935) && SmallFactor(1937) && SmallFactor(1939) && SmallFactor(1941) &&
      SmallFactor(1943) && SmallFactor(1945) && SmallFactor(1947) && !SmallFactor(1949);
  }

  lemma Row15At1951()
    ensures Scan(1951, 1967, Row15, 11, 12)
  {
    assert !SmallFactor(1951) && SmallFactor(1953) && SmallFactor(1955) && SmallFactor(1957) &&
      SmallFactor(1959) && SmallFactor(1961) && SmallFactor(1963) && SmallFactor(1965);
  }

  lemma Row15At1967()
    ensures Scan(1967, 1983, Row15, 12, 14)
  {
    assert SmallFactor(1967) && SmallFactor(1969) && SmallFactor(1971) && !SmallFactor(1973) &&
      SmallFactor(1975) && SmallFactor(1977) && !SmallFactor(1979) && SmallFactor(1981);
  }

  lemma Row15At1983()
    ensures Scan(1983, 1999, Row15, 14, 17)
  {
    assert SmallFactor(1983) && SmallFactor(1985) && !SmallFactor(1987) && SmallFactor(1989) &&
      SmallFactor(1991) && !SmallFactor(1993) && SmallFactor(1995) && !SmallFactor(1997);
  }


  lemma Row15ScanFrom1951()
    ensures Scan(1951, 1999, Row15, 11, 17)
  {
    Row15At1983();
    Row15At1967();
    ScanJoin(1967, 8, 1999, Row15, 12, 14, 17);
    Row15At1951();
    ScanJoin(1951, 8, 1999, Row15, 11, 12, 17);
  }

  lemma Row15ScanFrom1903()
    ensures Scan(1903, 1999, Row15, 6, 17)
  {
    Row15ScanFrom1951();
    Row15At1935();
    ScanJoin(1935, 8, 1999, Row15, 10, 11, 17);
    Row15At1919();
    ScanJoin(1919, 8, 1999, Row15, 8, 10, 17);
    Row15At1903();
    ScanJoin(1903, 8, 1999, Row15, 6, 8, 17);
  }

  lemma Row15Scan()
    ensures Scan(1871, 1999, Row15, 0, 17)
  {
    Row15ScanFrom1903();
    Row15At1887();
    ScanJoin(1887, 8, 1999, Row15, 4, 6, 17);
    Row15At1871();
    ScanJoin(1871, 8, 1999, Row15, 0, 4, 17);
  }

  lemma Row15Lists()
    ensures ListsPrimes(Row15, 1871, 1999)
  {
    Row15Scan();
    RowListsPrimes(Row15, 1871, 1999, 0);
    assert Row15[0..] == Row15;
  }

  lemma Row16At1999()
    ensures Scan(1999, 2015, Row16, 0, 3)
  {
    assert !SmallFactor(1999) && SmallFactor(2001) && !SmallFactor(2003) && SmallFactor(2005) &&
      SmallFactor(2007) && SmallFactor(2009) && !SmallFactor(2011) && SmallFactor(2013);
  }

  lemma Row16At2015()
    ensures Scan(2015, 2031, Row16, 3, 6)
  {
    assert SmallFactor(2015) && !SmallFactor(2017) && SmallFactor(2019) && SmallFactor(2021) &&
      SmallFactor(2023) && SmallFactor(2025) && !SmallFactor(2027) && !SmallFactor(2029);
  }

  lemma Row16At2031()
    ensures Scan(2031, 2047, Row16, 6, 7)
  {
    assert SmallFactor(2031) && SmallFactor(2033) && SmallFactor(2035) && SmallFactor(2037) &&
      !SmallFactor(2039) && SmallFactor(2041) && SmallFactor(2043) && SmallFactor(2045);
  }

  lemma Row16At2047()
    ensures Scan(2047, 2063, Row16, 7, 8)
  {
    assert SmallFactor(2047) && SmallFactor(2049) && SmallFactor(2051) && !SmallFactor(2053) &&
      SmallFactor(2055) && SmallFactor(2057) && SmallFactor(2059) && SmallFactor(2061);
  }

  lemma Row16At2063()
    ensures Scan(2063, 2079, Row16, 8, 10)
  {
    assert !SmallFactor(2063) && SmallFactor(2065) && SmallFactor(2067) && !SmallFactor(2069) &&
      SmallFactor(2071) && SmallFactor(2073) && SmallFactor(2075) && SmallFactor(2077);
  }

  lemma Row16At2079()
    ensures Scan(2079, 2095, Row16, 10, 14)
  {
    assert SmallFactor(2079) && !SmallFactor(2081) && !SmallFactor(2083) && SmallFactor(2085) &&
      !SmallFactor(2087) && !SmallFactor(2089) && SmallFactor(2091) && SmallFactor(2093);
  }

  lemma Row16At2095()
    ensures Scan(2095, 2111, Row16, 14, 15)
  {
    assert SmallFactor(2095) && SmallFactor(2097) && !SmallFactor(2099) && SmallFactor(2101) &&
      SmallFactor(2103) && SmallFactor(2105) && SmallFactor(2107) && SmallFactor(2109);
  }

  lemma Row16At2111()
    ensures Scan(2111, 2127, Row16, 15, 17)
  {
    assert !SmallFactor(2111) && !SmallFactor(2113) && SmallFactor(2115) && SmallFactor(2117) &&
      SmallFactor(2119) && SmallFactor(2121) && SmallFactor(2123) && SmallFactor(2125);
  }

  lemma Row16At2127()
    ensures Scan(2127, 2129, Row16, 17, 17)
  {
    assert SmallFactor(2127);
  }


  lemma Row16ScanFrom2095()
    ensures Scan(2095, 2129, Row16, 14, 17)
  {
    Row16At2127();
    Row16At2111();
    ScanJoin(2111, 8, 2129, Row16, 15, 17, 17);
    Row16At2095();
    ScanJoin(2095, 8, 2129, Row16, 14, 15, 17);
  }

  lemma Row16ScanFrom2047()
    ensures Scan(2047, 2129, Row16, 7, 17)
  {
    Row16ScanFrom2095();
    Row16At2079();
    ScanJoin(2079, 8, 2129, Row16, 10, 14, 17);
    Row16At2063();
    ScanJoin(2063, 8, 2129, Row16, 8, 10, 17);
    Row16At2047();
    ScanJoin(2047, 8, 2129, Row16, 7, 8, 17);
  }

  lemma Row16Scan()
    ensures Scan(1999, 2129, Row16, 0, 17)
  {
    Row16ScanFrom2047();
    Row16At2031();
    ScanJoin(2031, 8, 2129, Row16, 6, 7, 17);
    Row16At2015();
    ScanJoin(2015, 8, 2129, Row16, 3, 6, 17);
    Row16At1999();
    ScanJoin(1999, 8, 2129, Row16, 0, 3, 17);
  }

  lemma Row16Lists()
    ensures ListsPrimes(Row16, 1999, 2129)
  {
    Row16Scan();
    RowListsPrimes(Row16, 1999, 2129, 0);
    assert Row16[0..] == Row16;
  }

  lemma Row17At2129()
    ensures Scan(2129, 2145, Row17, 0, 5)
  {
    assert !SmallFactor(2129) && !SmallFactor(2131) && SmallFactor(2133) && SmallFactor(2135) &&
      !SmallFactor(2137) && SmallFactor(2139) && !SmallFactor(2141) && !SmallFactor(2143);
  }

  lemma Row17At2145()
    ensures Scan(2145, 2161, Row17, 5, 6)
  {
    assert SmallFactor(2145) && SmallFactor(2147) && SmallFactor(2149) && SmallFactor(2151) &&
      !SmallFactor(2153) && SmallFactor(2155) && SmallFactor(2157) && SmallFactor(2159);
  }

  lemma Row17At2161()
    ensures Scan(2161, 2177, Row17, 6, 7)
  {
    assert !SmallFactor(2161) && SmallFactor(2163) && SmallFactor(2165) && SmallFactor(2167) &&
      SmallFactor(2169) && SmallFactor(2171) && SmallFactor(2173) && SmallFactor(2175);
  }

  lemma Row17At2177()
    ensures Scan(2177, 2193, Row17, 7, 8)
  {
    assert SmallFactor(2177) && !SmallFactor(2179) && SmallFactor(2181) && SmallFactor(2183) &&
      SmallFactor(2185) && SmallFactor(2187) && SmallFactor(2189) && SmallFactor(2191);
  }

  lemma Row17At2193()
    ensures Scan(2193, 2209, Row17, 8, 10)
  {
    assert SmallFactor(2193) && SmallFactor(2195) && SmallFactor(2197) && SmallFactor(2199) &&
      SmallFactor(2201) && !SmallFactor(2203) && SmallFactor(2205) && !SmallFactor(2207);
  }

  lemma Row17At2209()
    ensures Scan(2209, 2225, Row17, 10, 12)
  {
    assert SmallFactor(2209) && SmallFactor(2211) && !SmallFactor(2213) && SmallFactor(2215) &&
      SmallFactor(2217) && SmallFactor(2219) && !SmallFactor(2221) && SmallFactor(2223);
  }

  lemma Row17At2225()
    ensures Scan(2225, 2241, Row17, 12, 14)
  {
    assert SmallFactor(2225) && SmallFactor(2227) && SmallFactor(2229) && SmallFactor(2231) &&
      SmallFactor(2233) && SmallFactor(2235) && !SmallFactor(2237) && !SmallFactor(2239);
  }

  lemma Row17At2241()
    ensures Scan(2241, 2257, Row17, 14, 16)
  {
    assert SmallFactor(2241) && !SmallFactor(2243) && SmallFactor(2245) && SmallFactor(2247) &&
      SmallFactor(2249) && !SmallFactor(2251) && SmallFactor(2253) && SmallFactor(2255);
  }

  lemma Row17At2257()
    ensures Scan(2257, 2269, Row17, 16, 17)
  {
    assert SmallFactor(2257) && SmallFactor(2259) && SmallFactor(2261) && SmallFactor(2263) &&
      SmallFactor(2265) && !SmallFactor(2267);
  }


  lemma Row17ScanFrom2225()
    ensures Scan(2225, 2269, Row17, 12, 17)
  {
    Row17At2257();
    Row17At2241();
    ScanJoin(2241, 8, 2269, Row17, 14, 16, 17);
    Row17At2225();
    ScanJoin(2225, 8, 2269, Row17, 12, 14, 17);
  }

  lemma Row17ScanFrom2177()
    ensures Scan(2177, 2269, Row17, 7, 17)
  {
    Row17ScanFrom2225();
    Row17At2209();
    ScanJoin(2209, 8, 2269, Row17, 10, 12, 17);
    Row17At2193();
    ScanJoin(2193, 8, 2269, Row17, 8, 10, 17);
    Row17At2177();
    ScanJoin(2177, 8, 2269, Row17, 7, 8, 17);
  }

  lemma Row17Scan()
    ensures Scan(2129, 2269, Row17, 0, 17)
  {
    Row17ScanFrom2177();
    Row17At2161();
    ScanJoin(2161, 8, 2269, Row17, 6, 7, 17);
    Row17At2145();
    ScanJoin(2145, 8, 2269, Row17, 5, 6, 17);
    Row17At2129();
    ScanJoin(2129, 8, 2269, Row17, 0, 5, 17);
  }

  lemma Row17Lists()
    ensures ListsPrimes(Row17, 2129, 2269)
  {
    Row17Scan();
    RowListsPrimes(Row17, 2129, 2269, 0);
    assert Row17[0..] == Row17;
  }

  lemma Row18At2269()
    ensures Scan(2269, 2285, Row18, 0, 3)
  {
    assert !SmallFactor(2269) && SmallFactor(2271) && !SmallFactor(2273) && SmallFactor(2275) &&
      SmallFactor(2277) && SmallFactor(2279) && !SmallFactor(2281) && SmallFactor(2283);
  }

  lemma Row18At2285()
    ensures Scan(2285, 2301, Row18, 3, 6)
  {
    assert SmallFactor(2285) && !SmallFactor(2287) && SmallFactor(2289) && SmallFactor(2291) &&
      !SmallFactor(2293) && SmallFactor(2295) && !SmallFactor(2297) && SmallFactor(2299);
  }

  lemma Row18At2301()
    ensures Scan(2301, 2317, Row18, 6, 8)
  {
    assert SmallFactor(2301) && SmallFactor(2303) && SmallFactor(2305) && SmallFactor(2307) &&
      !SmallFactor(2309) && !SmallFactor(2311) && SmallFactor(2313) && SmallFactor(2315);
  }

  lemma Row18At2317()
    ensures Scan(2317, 2333, Row18, 8, 8)
  {
    assert SmallFactor(2317) && SmallFactor(2319) && SmallFactor(2321) && SmallFactor(2323) &&
      SmallFactor(2325) && SmallFactor(2327) && SmallFactor(2329) && SmallFactor(2331);
  }

  lemma Row18At2333()
    ensures Scan(2333, 2349, Row18, 8, 12)
  {
    assert !SmallFactor(2333) && SmallFactor(2335) && SmallFactor(2337) && !SmallFactor(2339) &&
      !SmallFactor(2341) && SmallFactor(2343) && SmallFactor(2345) && !SmallFactor(2347);
  }

  lemma Row18At2349()
    ensures Scan(2349, 2365, Row18, 12, 14)
  {
    assert SmallFactor(2349) && !SmallFactor(2351) && SmallFactor(2353) && SmallFactor(2355) &&
      !SmallFactor(2357) && SmallFactor(2359) && SmallFactor(2361) && SmallFactor(2363);
  }

  lemma Row18At2365()
    ensures Scan(2365, 2381, Row18, 14, 16)
  {
    assert SmallFactor(2365) && SmallFactor(2367) && SmallFactor(2369) && !SmallFactor(2371) &&
      SmallFactor(2373) && SmallFactor(2375) && !SmallFactor(2377) && SmallFactor(2379);
  }

  lemma Row18At2381()
    ensures Scan(2381, 2383, Row18, 16, 17)
  {
    assert !SmallFactor(2381);
  }


  lemma Row18ScanFrom2349()
    ensures Scan(2349, 2383, Row18, 12, 17)
  {
    Row18At2381();
    Row18At2365();
    ScanJoin(2365, 8, 2383, Row18, 14, 16, 17);
    Row18At2349();
    ScanJoin(2349, 8, 2383, Row18, 12, 14, 17);
  }

  lemma Row18ScanFrom2301()
    ensures Scan(2301, 2383, Row18, 6, 17)
  {
    Row18ScanFrom2349();
    Row18At2333();
    ScanJoin(2333, 8, 2383, Row18, 8, 12, 17);
    Row18At2317();
    ScanJoin(2317, 8, 2383, Row18, 8, 8, 17);
    Row18At2301();
    ScanJoin(2301, 8, 2383, Row18, 6, 8, 17);
  }

  lemma Row18Scan()
    ensures Scan(2269, 2383, Row18, 0, 17)
  {
    Row18ScanFrom2301();
    Row18At2285();
    ScanJoin(2285, 8, 2383, Row18, 3, 6, 17);
    Row18At2269();
    ScanJoin(2269, 8, 2383, Row18, 0, 3, 17);
  }

  lemma Row18Lists()
    ensures ListsPrimes(Row18, 2269, 2383)
  {
    Row18Scan();
    RowListsPrimes(Row18, 2269, 2383, 0);
    assert Row18[0..] == Row18;
  }

  lemma Row19At2383()
    ensures Scan(2383, 2399, Row19, 0, 3)
  {
    assert !SmallFactor(2383) && SmallFactor(2385) && SmallFactor(2387) && !SmallFactor(2389) &&
      SmallFactor(2391) && !SmallFactor(2393) && SmallFactor(2395) && SmallFactor(2397);
  }

  lemma Row19At2399()
    ensures Scan(2399, 2415, Row19, 3, 5)
  {
    assert !SmallFactor(2399) && SmallFactor(2401) && SmallFactor(2403) && SmallFactor(2405) &&
      SmallFactor(2407) && SmallFactor(2409) && !SmallFactor(2411) && SmallFactor(2413);
  }

  lemma Row19At2415()
    ensures Scan(2415, 2431, Row19, 5, 7)
  {
    assert SmallFactor(2415) && !SmallFactor(2417) && SmallFactor(2419) && SmallFactor(2421) &&
      !SmallFactor(2423) && SmallFactor(2425) && SmallFactor(2427) && SmallFactor(2429);
  }

  lemma Row19At2431()
    ensures Scan(2431, 2447, Row19, 7, 9)
  {
    assert SmallFactor(2431) && SmallFactor(2433) && SmallFactor(2435) && !SmallFactor(2437) &&
      SmallFactor(2439) && !SmallFactor(2441) && SmallFactor(2443) && SmallFactor(2445);
  }

  lemma Row19At2447()
    ensures Scan(2447, 2463, Row19, 9, 11)
  {
    assert !SmallFactor(2447) && SmallFactor(2449) && SmallFactor(2451) && SmallFactor(2453) &&
      SmallFactor(2455) && SmallFactor(2457) && !SmallFactor(2459) && SmallFactor(2461);
  }

  lemma Row19At2463()
    ensures Scan(2463, 2479, Row19, 11, 14)
  {
    assert SmallFactor(2463) && SmallFactor(2465) && !SmallFactor(2467) && SmallFactor(2469) &&
      SmallFactor(2471) && !SmallFactor(2473) && SmallFactor(2475) && !SmallFactor(2477);
  }

  lemma Row19At2479()
    ensures Scan(2479, 2495, Row19, 14, 14)
  {
    assert SmallFactor(2479) && SmallFactor(2481) && SmallFactor(2483) && SmallFactor(2485) &&
      SmallFactor(2487) && SmallFactor(2489) && SmallFactor(2491) && SmallFactor(2493);
  }

  lemma Row19At2495()
    ensures Scan(2495, 2511, Row19, 14, 15)
  {
    assert SmallFactor(2495) && SmallFactor(2497) && SmallFactor(2499) && SmallFactor(2501) &&
      !SmallFactor(2503) && SmallFactor(2505) && SmallFactor(2507) && SmallFactor(2509);
  }

  lemma Row19At2511()
    ensures Scan(2511, 2527, Row19, 15, 16)
  {
    assert SmallFactor(2511) && SmallFactor(2513) && SmallFactor(2515) && SmallFactor(2517) &&
      SmallFactor(2519) && !SmallFactor(2521) && SmallFactor(2523) && SmallFactor(2525);
  }

  lemma Row19At2527()
    ensures Scan(2527, 2539, Row19, 16, 17)
  {
    assert SmallFactor(2527) && SmallFactor(2529) && !SmallFactor(2531) && SmallFactor(2533) &&
      SmallFactor(2535) && SmallFactor(2537);
  }


  lemma Row19ScanFrom2495()
    ensures Scan(2495, 2539, Row19, 14, 17)
  {
    Row19At2527();
    Row19At2511();
    ScanJoin(2511, 8, 2539, Row19, 15, 16, 17);
    Row19At2495();
    ScanJoin(2495, 8, 2539, Row19, 14, 15, 17);
  }

  lemma Row19ScanFrom2447()
    ensures Scan(2447, 2539, Row19, 9, 17)
  {
    Row19ScanFrom2495();
    Row19At2479();
    ScanJoin(2479, 8, 2539, Row19, 14, 14, 17);
    Row19At2463();
    ScanJoin(2463, 8, 2539, Row19, 11, 14, 17);
    Row19At2447();
    ScanJoin(2447, 8, 2539, Row19, 9, 11, 17);
  }

  lemma Row19ScanFrom2399()
    ensures Scan(2399, 2539, Row19, 3, 17)
  {
    Row19ScanFrom2447();
    Row19At2431();
    ScanJoin(2431, 8, 2539, Row19, 7, 9, 17);
    Row19At2415();
    ScanJoin(2415, 8, 2539, Row19, 5, 7, 17);
    Row19At2399();
    ScanJoin(2399, 8, 2539, Row19, 3, 5, 17);
  }

  lemma Row19Scan()
    ensures Scan(2383, 2539, Row19, 0, 17)
  {
    Row19ScanFrom2399();
    Row19At2383();
    ScanJoin(2383, 8, 2539, Row19, 0, 3, 17);
  }

  lemma Row19Lists()
    ensures ListsPrimes(Row19, 2383, 2539)
  {
    Row19Scan();
    RowListsPrimes(Row19, 2383, 2539, 0);
    assert Row19[0..] == Row19;
  }

  lemma Row20At2539()
    ensures Scan(2539, 2555, Row20, 0, 4)
  {
    assert !SmallFactor(2539) && SmallFactor(2541) && !SmallFactor(2543) && SmallFactor(2545) &&
      SmallFactor(2547) && !SmallFactor(2549) && !SmallFactor(2551) && SmallFactor(2553);
  }

  lemma Row20At2555()
    ensures Scan(2555, 2571, Row20, 4, 5)
  {
    assert SmallFactor(2555) && !SmallFactor(2557) && SmallFactor(2559) && SmallFactor(2561) &&
      SmallFactor(2563) && SmallFactor(2565) && SmallFactor(2567) && SmallFactor(2569);
  }

  lemma Row20At2571()
    ensures Scan(2571, 2587, Row20, 5, 6)
  {
    assert SmallFactor(2571) && SmallFactor(2573) && SmallFactor(2575) && SmallFactor(2577) &&
      !SmallFactor(2579) && SmallFactor(2581) && SmallFactor(2583) && SmallFactor(2585);
  }

  lemma Row20At2587()
    ensures Scan(2587, 2603, Row20, 6, 8)
  {
    assert SmallFactor(2587) && SmallFactor(2589) && !SmallFactor(2591) && !SmallFactor(2593) &&
      SmallFactor(2595) && SmallFactor(2597) && SmallFactor(2599) && SmallFactor(2601);
  }

  lemma Row20At2603()
    ensures Scan(2603, 2619, Row20, 8, 10)
  {
    assert SmallFactor(2603) && SmallFactor(2605) && SmallFactor(2607) && !SmallFactor(2609) &&
      SmallFactor(2611) && SmallFactor(2613) && SmallFactor(2615) && !SmallFactor(2617);
  }

  lemma Row20At2619()
    ensures Scan(2619, 2635, Row20, 10, 12)
  {
    assert SmallFactor(2619) && !SmallFactor(2621) && SmallFactor(2623) && SmallFactor(2625) &&
      SmallFactor(2627) && SmallFactor(2629) && SmallFactor(2631) && !SmallFactor(2633);
  }

  lemma Row20At2635()
    ensures Scan(2635, 2651, Row20, 12, 13)
  {
    assert SmallFactor(2635) && SmallFactor(2637) && SmallFactor(2639) && SmallFactor(2641) &&
      SmallFactor(2643) && SmallFactor(2645) && !SmallFactor(2647) && SmallFactor(2649);
  }

  lemma Row20At2651()
    ensures Scan(2651, 2667, Row20, 13, 16)
  {
    assert SmallFactor(2651) && SmallFactor(2653) && SmallFactor(2655) && !SmallFactor(2657) &&
      !SmallFactor(2659) && SmallFactor(2661) && !SmallFactor(2663) && SmallFactor(2665);
  }

  lemma Row20At2667()
    ensures Scan(2667, 2677, Row20, 16, 17)
  {
    assert SmallFactor(2667) && SmallFactor(2669) && !SmallFactor(2671) && SmallFactor(2673) &&
      SmallFactor(2675);
  }


  lemma Row20ScanFrom2635()
    ensures Scan(2635, 2677, Row20, 12, 17)
  {
    Row20At2667();
    Row20At2651();
    ScanJoin(2651, 8, 2677, Row20, 13, 16, 17);
    Row20At2635();
    ScanJoin(2635, 8, 2677, Row20, 12, 13, 17);
  }

  lemma Row20ScanFrom2587()
    ensures Scan(2587, 2677, Row20, 6, 17)
  {
    Row20ScanFrom2635();
    Row20At2619();
    ScanJoin(2619, 8, 2677, Row20, 10, 12, 17);
    Row20At2603();
    ScanJoin(2603, 8, 2677, Row20, 8, 10, 17);
    Row20At2587();
    ScanJoin(2587, 8, 2677, Row20, 6, 8, 17);
  }

  lemma Row20Scan()
    ensures Scan(2539, 2677, Row20, 0, 17)
  {
    Row20ScanFrom2587();
    Row20At2571();
    ScanJoin(2571, 8, 2677, Row20, 5, 6, 17);
    Row20At2555();
    ScanJoin(2555, 8, 2677, Row20, 4, 5, 17);
    Row20At2539();
    ScanJoin(2539, 8, 2677, Row20, 0, 4, 17);
  }

  lemma Row20Lists()
    ensures ListsPrimes(Row20, 2539, 2677)
  {
    Row20Scan();
    RowListsPrimes(Row20, 2539, 2677, 0);
    assert Row20[0..] == Row20;
  }

  lemma Row21At2677()
    ensures Scan(2677, 2693, Row21, 0, 4)
  {
    assert !SmallFactor(2677) && SmallFactor(2679) && SmallFactor(2681) && !SmallFactor(2683) &&
      SmallFactor(2685) && !SmallFactor(2687) && !SmallFactor(2689) && SmallFactor(2691);
  }

  lemma Row21At2693()
    ensures Scan(2693, 2709, Row21, 4, 7)
  {
    assert !SmallFactor(2693) && SmallFactor(2695) && SmallFactor(2697) && !SmallFactor(2699) &&
      SmallFactor(2701) && SmallFactor(2703) && SmallFactor(2705) && !SmallFactor(2707);
  }

  lemma Row21At2709()
    ensures Scan(2709, 2725, Row21, 7, 10)
  {
    assert SmallFactor(2709) && !SmallFactor(2711) && !SmallFactor(2713) && SmallFactor(2715) &&
      SmallFactor(2717) && !SmallFactor(2719) && SmallFactor(2721) && SmallFactor(2723);
  }

  lemma Row21At2725()
    ensures Scan(2725, 2741, Row21, 10, 12)
  {
    assert SmallFactor(2725) && SmallFactor(2727) && !SmallFactor(2729) && !SmallFactor(2731) &&
      SmallFactor(2733) && SmallFactor(2735) && SmallFactor(2737) && SmallFactor(2739);
  }

  lemma Row21At2741()
    ensures Scan(2741, 2757, Row21, 12, 15)
  {
    assert !SmallFactor(2741) && SmallFactor(2743) && SmallFactor(2745) && SmallFactor(2747) &&
      !SmallFactor(2749) && SmallFactor(2751) && !SmallFactor(2753) && SmallFactor(2755);
  }

  lemma Row21At2757()
    ensures Scan(2757, 2773, Row21, 15, 16)
  {
    assert SmallFactor(2757) && SmallFactor(2759) && SmallFactor(2761) && SmallFactor(2763) &&
      SmallFactor(2765) && !SmallFactor(2767) && SmallFactor(2769) && SmallFactor(2771);
  }

  lemma Row21At2773()
    ensures Scan(2773, 2789, Row21, 16, 17)
  {
    assert SmallFactor(2773) && SmallFactor(2775) && !SmallFactor(2777) && SmallFactor(2779) &&
      SmallFactor(2781) && SmallFactor(2783) && SmallFactor(2785) && SmallFactor(2787);
  }


  lemma Row21ScanFrom2741()
    ensures Scan(2741, 2789, Row21, 12, 17)
  {
    Row21At2773();
    Row21At2757();
    ScanJoin(2757, 8, 2789, Row21, 15, 16, 17);
    Row21At2741();
    ScanJoin(2741, 8, 2789, Row21, 12, 15, 17);
  }

  lemma Row21ScanFrom2693()
    ensures Scan(2693, 2789, Row21, 4, 17)
  {
    Row21ScanFrom2741();
    Row21At2725();
    ScanJoin(2725, 8, 2789, Row21, 10, 12, 17);
    Row21At2709();
    ScanJoin(2709, 8, 2789, Row21, 7, 10, 17);
    Row21At2693();
    ScanJoin(2693, 8, 2789, Row21, 4, 7, 17);
  }

  lemma Row21Scan()
    ensures Scan(2677, 2789, Row21, 0, 17)
  {
    Row21ScanFrom2693();
    Row21At2677();
    ScanJoin(2677, 8, 2789, Row21, 0, 4, 17);
  }

  lemma Row21Lists()
    ensures ListsPrimes(Row21, 2677, 2789)
  {
    Row21Scan();
    RowListsPrimes(Row21, 2677, 2789, 0);
    assert Row21[0..] == Row21;
  }

  lemma Row22At2789()
    ensures Scan(2789, 2805, Row22, 0, 5)
  {
    assert !SmallFactor(2789) && !SmallFactor(2791) && SmallFactor(2793) && SmallFactor(2795) &&
      !SmallFactor(2797) && SmallFactor(2799) && !SmallFactor(2801) && !SmallFactor(2803);
  }

  lemma Row22At2805()
    ensures Scan(2805, 2821, Row22, 5, 6)
  {
    assert SmallFactor(2805) && SmallFactor(2807) && SmallFactor(2809) && SmallFactor(2811) &&
      SmallFactor(2813) && SmallFactor(2815) && SmallFactor(2817) && !SmallFactor(2819);
  }

  lemma Row22At2821()
    ensures Scan(2821, 2837, Row22, 6, 7)
  {
    assert SmallFactor(2821) && SmallFactor(2823) && SmallFactor(2825) && SmallFactor(2827) &&
      SmallFactor(2829) && SmallFactor(2831) && !SmallFactor(2833) && SmallFactor(2835);
  }

  lemma Row22At2837()
    ensures Scan(2837, 2853, Row22, 7, 10)
  {
    assert !SmallFactor(2837) && SmallFactor(2839) && SmallFactor(2841) && !SmallFactor(2843) &&
      SmallFactor(2845) && SmallFactor(2847) && SmallFactor(2849) && !SmallFactor(2851);
  }

  lemma Row22At2853()
    ensures Scan(2853, 2869, Row22, 10, 12)
  {
    assert SmallFactor(2853) && SmallFactor(2855) && !SmallFactor(2857) && SmallFactor(2859) &&
      !SmallFactor(2861) && SmallFactor(2863) && SmallFactor(2865) && SmallFactor(2867);
  }

  lemma Row22At2869()
    ensures Scan(2869, 2885, Row22, 12, 13)
  {
    assert SmallFactor(2869) && SmallFactor(2871) && SmallFactor(2873) && SmallFactor(2875) &&
      SmallFactor(2877) && !SmallFactor(2879) && SmallFactor(2881) && SmallFactor(2883);
  }

  lemma Row22At2885()
    ensures Scan(2885, 2901, Row22, 13, 15)
  {
    assert SmallFactor(2885) && !SmallFactor(2887) && SmallFactor(2889) && SmallFactor(2891) &&
      SmallFactor(2893) && SmallFactor(2895) && !SmallFactor(2897) && SmallFactor(2899);
  }

  lemma Row22At2901()
    ensures Scan(2901, 2917, Row22, 15, 17)
  {
    assert SmallFactor(2901) && !SmallFactor(2903) && SmallFactor(2905) && SmallFactor(2907) &&
      !SmallFactor(2909) && SmallFactor(2911) && SmallFactor(2913) && SmallFactor(2915);
  }


  lemma Row22ScanFrom2869()
    ensures Scan(2869, 2917, Row22, 12, 17)
  {
    Row22At2901();
    Row22At2885();
    ScanJoin(2885, 8, 2917, Row22, 13, 15, 17);
    Row22At2869();
    ScanJoin(2869, 8, 2917, Row22, 12, 13, 17);
  }

  lemma Row22ScanFrom2821()
    ensures Scan(2821, 2917, Row22, 6, 17)
  {
    Row22ScanFrom2869();
    Row22At2853();
    ScanJoin(2853, 8, 2917, Row22, 10, 12, 17);
    Row22At2837();
    ScanJoin(2837, 8, 2917, Row22, 7, 10, 17);
    Row22At2821();
    ScanJoin(2821, 8, 2917, Row22, 6, 7, 17);
  }

  lemma Row22Scan()
    ensures Scan(2789, 2917, Row22, 0, 17)
  {
    Row22ScanFrom2821();
    Row22At2805();
    ScanJoin(2805, 8, 2917, Row22, 5, 6, 17);
    Row22At2789();
    ScanJoin(2789, 8, 2917, Row22, 0, 5, 17);
  }

  lemma Row22Lists()
    ensures ListsPrimes(Row22, 2789, 2917)
  {
    Row22Scan();
    RowListsPrimes(Row22, 2789, 2917, 0);
    assert Row22[0..] == Row22;
  }

  lemma Row23At2917()
    ensures Scan(2917, 2933, Row23, 0, 2)
  {
    assert !SmallFactor(2917) && SmallFactor(2919) && SmallFactor(2921) && SmallFactor(2923) &&
      SmallFactor(2925) && !SmallFactor(2927) && SmallFactor(2929) && SmallFactor(2931);
  }

  lemma Row23At2933()
    ensures Scan(2933, 2949, Row23, 2, 3)
  {
    assert SmallFactor(2933) && SmallFactor(2935) && SmallFactor(2937) && !SmallFactor(2939) &&
      SmallFactor(2941) && SmallFactor(2943) && SmallFactor(2945) && SmallFactor(2947);
  }

  lemma Row23At2949()
    ensures Scan(2949, 2965, Row23, 3, 6)
  {
    assert SmallFactor(2949) && SmallFactor(2951) && !SmallFactor(2953) && SmallFactor(2955) &&
      !SmallFactor(2957) && SmallFactor(2959) && SmallFactor(2961) && !SmallFactor(2963);
  }

  lemma Row23At2965()
    ensures Scan(2965, 2981, Row23, 6, 8)
  {
    assert SmallFactor(2965) && SmallFactor(2967) && !SmallFactor(2969) && !SmallFactor(2971) &&
      SmallFactor(2973) && SmallFactor(2975) && SmallFactor(2977) && SmallFactor(2979);
  }

  lemma Row23At2981()
    ensures Scan(2981, 2997, Row23, 8, 8)
  {
    assert SmallFactor(2981) && SmallFactor(2983) && SmallFactor(2985) && SmallFactor(2987) &&
      SmallFactor(2989) && SmallFactor(2991) && SmallFactor(2993) && SmallFactor(2995);
  }

  lemma Row23At2997()
    ensures Scan(2997, 3013, Row23, 8, 11)
  {
    assert SmallFactor(2997) && !SmallFactor(2999) && !SmallFactor(3001) && SmallFactor(3003) &&
      SmallFactor(3005) && SmallFactor(3007) && SmallFactor(3009) && !SmallFactor(3011);
  }

  lemma Row23At3013()
    ensures Scan(3013, 3029, Row23, 11, 13)
  {
    assert SmallFactor(3013) && SmallFactor(3015) && SmallFactor(3017) && !SmallFactor(3019) &&
      SmallFactor(3021) && !SmallFactor(3023) && SmallFactor(3025) && SmallFactor(3027);
  }

  lemma Row23At3029()
    ensures Scan(3029, 3045, Row23, 13, 15)
  {
    assert SmallFactor(3029) && SmallFactor(3031) && SmallFactor(3033) && SmallFactor(3035) &&
      !SmallFactor(3037) && SmallFactor(3039) && !SmallFactor(3041) && SmallFactor(3043);
  }

  lemma Row23At3045()
    ensures Scan(3045, 3061, Row23, 15, 16)
  {
    assert SmallFactor(3045) && SmallFactor(3047) && !SmallFactor(3049) && SmallFactor(3051) &&
      SmallFactor(3053) && SmallFactor(3055) && SmallFactor(3057) && SmallFactor(3059);
  }

  lemma Row23At3061()
    ensures Scan(3061, 3067, Row23, 16, 17)
  {
    assert !SmallFactor(3061) && SmallFactor(3063) && SmallFactor(3065);
  }


  lemma Row23ScanFrom3029()
    ensures Scan(3029, 3067, Row23, 13, 17)
  {
    Row23At3061();
    Row23At3045();
    ScanJoin(3045, 8, 3067, Row23, 15, 16, 17);
    Row23At3029();
    ScanJoin(3029, 8, 3067, Row23, 13, 15, 17);
  }

  lemma Row23ScanFrom2981()
    ensures Scan(2981, 3067, Row23, 8, 17)
  {
    Row23ScanFrom3029();
    Row23At3013();
    ScanJoin(3013, 8, 3067, Row23, 11, 13, 17);
    Row23At2997();
    ScanJoin(2997, 8, 3067, Row23, 8, 11, 17);
    Row23At2981();
    ScanJoin(2981, 8, 3067, Row23, 8, 8, 17);
  }

  lemma Row23ScanFrom2933()
    ensures Scan(2933, 3067, Row23, 2, 17)
  {
    Row23ScanFrom2981();
    Row23At2965();
    ScanJoin(2965, 8, 3067, Row23, 6, 8, 17);
    Row23At2949();
    ScanJoin(2949, 8, 3067, Row23, 3, 6, 17);
    Row23At2933();
    ScanJoin(2933, 8, 3067, Row23, 2, 3, 17);
  }

  lemma Row23Scan()
    ensures Scan(2917, 3067, Row23, 0, 17)
  {
    Row23ScanFrom2933();
    Row23At2917();
    ScanJoin(2917, 8, 3067, Row23, 0, 2, 17);
  }

  lemma Row23Lists()
    ensures ListsPrimes(Row23, 2917, 3067)
  {
    Row23Scan();
    RowListsPrimes(Row23, 2917, 3067, 0);
    assert Row23[0..] == Row23;
  }

  lemma Row24At3067()
    ensures Scan(3067, 3083, Row24, 0, 2)
  {
    assert !SmallFactor(3067) && SmallFactor(3069) && SmallFactor(3071) && SmallFactor(3073) &&
      SmallFactor(3075) && SmallFactor(3077) && !SmallFactor(3079) && SmallFactor(3081);
  }

  lemma Row24At3083()
    ensures Scan(3083, 3099, Row24, 2, 4)
  {
    assert !SmallFactor(3083) && SmallFactor(3085) && SmallFactor(3087) && !SmallFactor(3089) &&
      SmallFactor(3091) && SmallFactor(3093) && SmallFactor(3095) && SmallFactor(3097);
  }

  lemma Row24At3099()
    ensures Scan(3099, 3115, Row24, 4, 5)
  {
    assert SmallFactor(3099) && SmallFactor(3101) && SmallFactor(3103) && SmallFactor(3105) &&
      SmallFactor(3107) && !SmallFactor(3109) && SmallFactor(3111) && SmallFactor(3113);
  }

  lemma Row24At3115()
    ensures Scan(3115, 3131, Row24, 5, 7)
  {
    assert SmallFactor(3115) && SmallFactor(3117) && !SmallFactor(3119) && !SmallFactor(3121) &&
      SmallFactor(3123) && SmallFactor(3125) && SmallFactor(3127) && SmallFactor(3129);
  }

  lemma Row24At3131()
    ensures Scan(3131, 3147, Row24, 7, 8)
  {
    assert SmallFactor(3131) && SmallFactor(3133) && SmallFactor(3135) && !SmallFactor(3137) &&
      SmallFactor(3139) && SmallFactor(3141) && SmallFactor(3143) && SmallFactor(3145);
  }

  lemma Row24At3147()
    ensures Scan(3147, 3163, Row24, 8, 8)
  {
    assert SmallFactor(3147) && SmallFactor(3149) && SmallFactor(3151) && SmallFactor(3153) &&
      SmallFactor(3155) && SmallFactor(3157) && SmallFactor(3159) && SmallFactor(3161);
  }

  lemma Row24At3163()
    ensures Scan(3163, 3179, Row24, 8, 11)
  {
    assert !SmallFactor(3163) && SmallFactor(3165) && !SmallFactor(3167) && !SmallFactor(3169) &&
      SmallFactor(3171) && SmallFactor(3173) && SmallFactor(3175) && SmallFactor(3177);
  }

  lemma Row24At3179()
    ensures Scan(3179, 3195, Row24, 11, 14)
  {
    assert SmallFactor(3179) && !SmallFactor(3181) && SmallFactor(3183) && SmallFactor(3185) &&
      !SmallFactor(3187) && SmallFactor(3189) && !SmallFactor(3191) && SmallFactor(3193);
  }

  lemma Row24At3195()
    ensures Scan(3195, 3211, Row24, 14, 16)
  {
    assert SmallFactor(3195) && SmallFactor(3197) && SmallFactor(3199) && SmallFactor(3201) &&
      !SmallFactor(3203) && SmallFactor(3205) && SmallFactor(3207) && !SmallFactor(3209);
  }

  lemma Row24At3211()
    ensures Scan(3211, 3221, Row24, 16, 17)
  {
    assert SmallFactor(3211) && SmallFactor(3213) && SmallFactor(3215) && !SmallFactor(3217) &&
      SmallFactor(3219);
  }


  lemma Row24ScanFrom3179()
    ensures Scan(3179, 3221, Row24, 11, 17)
  {
    Row24At3211();
    Row24At3195();
    ScanJoin(3195, 8, 3221, Row24, 14, 16, 17);
    Row24At3179();
    ScanJoin(3179, 8, 3221, Row24, 11, 14, 17);
  }

  lemma Row24ScanFrom3131()
    ensures Scan(3131, 3221, Row24, 7, 17)
  {
    Row24ScanFrom3179();
    Row24At3163();
    ScanJoin(3163, 8, 3221, Row24, 8, 11, 17);
    Row24At3147();
    ScanJoin(3147, 8, 3221, Row24, 8, 8, 17);
    Row24At3131();
    ScanJoin(3131, 8, 3221, Row24, 7, 8, 17);
  }

  lemma Row24ScanFrom3083()
    ensures Scan(3083, 3221, Row24, 2, 17)
  {
    Row24ScanFrom3131();
    Row24At3115();
    ScanJoin(3115, 8, 3221, Row24, 5, 7, 17);
    Row24At3099();
    ScanJoin(3099, 8, 3221, Row24, 4, 5, 17);
    Row24At3083();
    ScanJoin(3083, 8, 3221, Row24, 2, 4, 17);
  }

  lemma Row24Scan()
    ensures Scan(3067, 3221, Row24, 0, 17)
  {
    Row24ScanFrom3083();
    Row24At3067();
    ScanJoin(3067, 8, 3221, Row24, 0, 2, 17);
  }

  lemma Row24Lists()
    ensures ListsPrimes(Row24, 3067, 3221)
  {
    Row24Scan();
    RowListsPrimes(Row24, 3067, 3221, 0);
    assert Row24[0..] == Row24;
  }

  lemma Row25At3221()
    ensures Scan(3221, 3237, Row25, 0, 2)
  {
    assert !SmallFactor(3221) && SmallFactor(3223) && SmallFactor(3225) && SmallFactor(3227) &&
      !SmallFactor(3229) && SmallFactor(3231) && SmallFactor(3233) && SmallFactor(3235);
  }

  lemma Row25At3237()
    ensures Scan(3237, 3253, Row25, 2, 3)
  {
    assert SmallFactor(3237) && SmallFactor(3239) && SmallFactor(3241) && SmallFactor(3243) &&
      SmallFactor(3245) && SmallFactor(3247) && SmallFactor(3249) && !SmallFactor(3251);
  }

  lemma Row25At3253()
    ensures Scan(3253, 3269, Row25, 3, 6)
  {
    assert !SmallFactor(3253) && SmallFactor(3255) && !SmallFactor(3257) && !SmallFactor(3259) &&
      SmallFactor(3261) && SmallFactor(3263) && SmallFactor(3265) && SmallFactor(3267);
  }

  lemma Row25At3269()
    ensures Scan(3269, 3285, Row25, 6, 7)
  {
    assert SmallFactor(3269) && !SmallFactor(3271) && SmallFactor(3273) && SmallFactor(3275) &&
      SmallFactor(3277) && SmallFactor(3279) && SmallFactor(3281) && SmallFactor(3283);
  }

  lemma Row25At3285()
    ensures Scan(3285, 3301, Row25, 7, 8)
  {
    assert SmallFactor(3285) && SmallFactor(3287) && SmallFactor(3289) && SmallFactor(3291) &&
      SmallFactor(3293) && SmallFactor(3295) && SmallFactor(3297) && !SmallFactor(3299);
  }

  lemma Row25At3301()
    ensures Scan(3301, 3317, Row25, 8, 11)
  {
    assert !SmallFactor(3301) && SmallFactor(3303) && SmallFactor(3305) && !SmallFactor(3307) &&
      SmallFactor(3309) && SmallFactor(3311) && !SmallFactor(3313) && SmallFactor(3315);
  }

  lemma Row25At3317()
    ensures Scan(3317, 3333, Row25, 11, 15)
  {
    assert SmallFactor(3317) && !SmallFactor(3319) && SmallFactor(3321) && !SmallFactor(3323) &&
      SmallFactor(3325) && SmallFactor(3327) && !SmallFactor(3329) && !SmallFactor(3331);
  }

  lemma Row25At3333()
    ensures Scan(3333, 3349, Row25, 15, 17)
  {
    assert SmallFactor(3333) && SmallFactor(3335) && SmallFactor(3337) && SmallFactor(3339) &&
      SmallFactor(3341) && !SmallFactor(3343) && SmallFactor(3345) && !SmallFactor(3347);
  }

  lemma Row25At3349()
    ensures Scan(3349, 3359, Row25, 17, 17)
  {
    assert SmallFactor(3349) && SmallFactor(3351) && SmallFactor(3353) && SmallFactor(3355) &&
      SmallFactor(3357);
  }


  lemma Row25ScanFrom3317()
    ensures Scan(3317, 3359, Row25, 11, 17)
  {
    Row25At3349();
    Row25At3333();
    ScanJoin(3333, 8, 3359, Row25, 15, 17, 17);
    Row25At3317();
    ScanJoin(3317, 8, 3359, Row25, 11, 15, 17);
  }

  lemma Row25ScanFrom3269()
    ensures Scan(3269, 3359, Row25, 6, 17)
  {
    Row25ScanFrom3317();
    Row25At3301();
    ScanJoin(3301, 8, 3359, Row25, 8, 11, 17);
    Row25At3285();
    ScanJoin(3285, 8, 3359, Row25, 7, 8, 17);
    Row25At3269();
    ScanJoin(3269, 8, 3359, Row25, 6, 7, 17);
  }

  lemma Row25Scan()
    ensures Scan(3221, 3359, Row25, 0, 17)
  {
    Row25ScanFrom3269();
    Row25At3253();
    ScanJoin(3253, 8, 3359, Row25, 3, 6, 17);
    Row25At3237();
    ScanJoin(3237, 8, 3359, Row25, 2, 3, 17);
    Row25At3221();
    ScanJoin(3221, 8, 3359, Row25, 0, 2, 17);
  }

  lemma Row25Lists()
    ensures ListsPrimes(Row25, 3221, 3359)
  {
    Row25Scan();
    RowListsPrimes(Row25, 3221, 3359, 0);
    assert Row25[0..] == Row25;
  }

  lemma Row26At3359()
    ensures Scan(3359, 3375, Row26, 0, 4)
  {
    assert !SmallFactor(3359) && !SmallFactor(3361) && SmallFactor(3363) && SmallFactor(3365) &&
      SmallFactor(3367) && SmallFactor(3369) && !SmallFactor(3371) && !SmallFactor(3373);
  }

  lemma Row26At3375()
    ensures Scan(3375, 3391, Row26, 4, 5)
  {
    assert SmallFactor(3375) && SmallFactor(3377) && SmallFactor(3379) && SmallFactor(3381) &&
      SmallFactor(3383) && SmallFactor(3385) && SmallFactor(3387) && !SmallFactor(3389);
  }

  lemma Row26At3391()
    ensures Scan(3391, 3407, Row26, 5, 6)
  {
    assert !SmallFactor(3391) && SmallFactor(3393) && SmallFactor(3395) && SmallFactor(3397) &&
      SmallFactor(3399) && SmallFactor(3401) && SmallFactor(3403) && SmallFactor(3405);
  }

  lemma Row26At3407()
    ensures Scan(3407, 3423, Row26, 6, 8)
  {
    assert !SmallFactor(3407) && SmallFactor(3409) && SmallFactor(3411) && !SmallFactor(3413) &&
      SmallFactor(3415) && SmallFactor(3417) && SmallFactor(3419) && SmallFactor(3421);
  }

  lemma Row26At3423()
    ensures Scan(3423, 3439, Row26, 8, 9)
  {
    assert SmallFactor(3423) && SmallFactor(3425) && SmallFactor(3427) && SmallFactor(3429) &&
      SmallFactor(3431) && !SmallFactor(3433) && SmallFactor(3435) && SmallFactor(3437);
  }

  lemma Row26At3439()
    ensures Scan(3439, 3455, Row26, 9, 10)
  {
    assert SmallFactor(3439) && SmallFactor(3441) && SmallFactor(3443) && SmallFactor(3445) &&
      SmallFactor(3447) && !SmallFactor(3449) && SmallFactor(3451) && SmallFactor(3453);
  }

  lemma Row26At3455()
    ensures Scan(3455, 3471, Row26, 10, 15)
  {
    assert SmallFactor(3455) && !SmallFactor(3457) && SmallFactor(3459) && !SmallFactor(3461) &&
      !SmallFactor(3463) && SmallFactor(3465) && !SmallFactor(3467) && !SmallFactor(3469);
  }

  lemma Row26At3471()
    ensures Scan(3471, 3487, Row26, 15, 15)
  {
    assert SmallFactor(3471) && SmallFactor(3473) && SmallFactor(3475) && SmallFactor(3477) &&
      SmallFactor(3479) && SmallFactor(3481) && SmallFactor(3483) && SmallFactor(3485);
  }

  lemma Row26At3487()
    ensures Scan(3487, 3503, Row26, 15, 17)
  {
    assert SmallFactor(3487) && SmallFactor(3489) && !SmallFactor(3491) && SmallFactor(3493) &&
      SmallFactor(3495) && SmallFactor(3497) && !SmallFactor(3499) && SmallFactor(3501);
  }

  lemma Row26At3503()
    ensures Scan(3503, 3511, Row26, 17, 17)
  {
    assert SmallFactor(3503) && SmallFactor(3505) && SmallFactor(3507) && SmallFactor(3509);
  }


  lemma Row26ScanFrom3471()
    ensures Scan(3471, 3511, Row26, 15, 17)
  {
    Row26At3503();
    Row26At3487();
    ScanJoin(3487, 8, 3511, Row26, 15, 17, 17);
    Row26At3471();
    ScanJoin(3471, 8, 3511, Row26, 15, 15, 17);
  }

  lemma Row26ScanFrom3423()
    ensures Scan(3423, 3511, Row26, 8, 17)
  {
    Row26ScanFrom3471();
    Row26At3455();
    ScanJoin(3455, 8, 3511, Row26, 10, 15, 17);
    Row26At3439();
    ScanJoin(3439, 8, 3511, Row26, 9, 10, 17);
    Row26At3423();
    ScanJoin(3423, 8, 3511, Row26, 8, 9, 17);
  }

  lemma Row26ScanFrom3375()
    ensures Scan(3375, 3511, Row26, 4, 17)
  {
    Row26ScanFrom3423();
    Row26At3407();
    ScanJoin(3407, 8, 3511, Row26, 6, 8, 17);
    Row26At3391();
    ScanJoin(3391, 8, 3511, Row26, 5, 6, 17);
    Row26At3375();
    ScanJoin(3375, 8, 3511, Row26, 4, 5, 17);
  }

  lemma Row26Scan()
    ensures Scan(3359, 3511, Row26, 0, 17)
  {
    Row26ScanFrom3375();
    Row26At3359();
    ScanJoin(3359, 8, 3511, Row26, 0, 4, 17);
  }

  lemma Row26Lists()
    ensures ListsPrimes(Row26, 3359, 3511)
  {
    Row26Scan();
    RowListsPrimes(Row26, 3359, 3511, 0);
    assert Row26[0..] == Row26;
  }

  lemma Row27At3511()
    ensures Scan(3511, 3527, Row27, 0, 2)
  {
    assert !SmallFactor(3511) && SmallFactor(3513) && SmallFactor(3515) && !SmallFactor(3517) &&
      SmallFactor(3519) && SmallFactor(3521) && SmallFactor(3523) && SmallFactor(3525);
  }

  lemma Row27At3527()
    ensures Scan(3527, 3543, Row27, 2, 7)
  {
    assert !SmallFactor(3527) && !SmallFactor(3529) && SmallFactor(3531) && !SmallFactor(3533) &&
      SmallFactor(3535) && SmallFactor(3537) && !SmallFactor(3539) && !SmallFactor(3541);
  }

  lemma Row27At3543()
    ensures Scan(3543, 3559, Row27, 7, 9)
  {
    assert SmallFactor(3543) && SmallFactor(3545) && !SmallFactor(3547) && SmallFactor(3549) &&
      SmallFactor(3551) && SmallFactor(3553) && SmallFactor(3555) && !SmallFactor(3557);
  }

  lemma Row27At3559()
    ensures Scan(3559, 3572, Row27, 9, 11)
  {
    assert !SmallFactor(3559) && SmallFactor(3561) && SmallFactor(3563) && SmallFactor(3565) &&
      SmallFactor(3567) && SmallFactor(3569) && !SmallFactor(3571);
  }


  lemma Row27ScanFrom3527()
    ensures Scan(3527, 3572, Row27, 2, 11)
  {
    Row27At3559();
    Row27At3543();
    ScanJoin(3543, 8, 3572, Row27, 7, 9, 11);
    Row27At3527();
    ScanJoin(3527, 8, 3572, Row27, 2, 7, 11);
  }

  lemma Row27Scan()
    ensures Scan(3511, 3572, Row27, 0, 11)
  {
    Row27ScanFrom3527();
    Row27At3511();
    ScanJoin(3511, 8, 3572, Row27, 0, 2, 11);
  }

  lemma Row27Lists()
    ensures ListsPrimes(Row27, 3511, 3572)
  {
    Row27Scan();
    RowListsPrimes(Row27, 3511, 3572, 0);
    assert Row27[0..] == Row27;
  }

  /** Row0 lists the primes from 2 on: the primes below 61 and then its
      scanned part. */
  lemma Row0ListsAll()
    ensures ListsPrimes(Row0, 2, 103)
  {
    SmallPrimesListed();
    Row0Lists();
    assert Row0 == SmallPrimes + Row0[17..];
    ListsPrimesConcat(SmallPrimes, Row0[17..], 2, 61, 103);
  }

  /** Rows 1 to 2 list exactly the primes from 103 below 331. */
  lemma Rows1To2Lists()
    ensures ListsPrimes(Row1 + Row2, 103, 331)
  {
    Row1Lists();
    Row2Lists();
    ListsPrimesConcat(Row1, Row2, 103, 211, 331);
  }

  /** Rows 0 to 2 list exactly the primes from 2 below 331. */
  lemma Rows0To2Lists()
    ensures ListsPrimes(Row0 + (Row1 + Row2), 2, 331)
  {
    Row0ListsAll();
    Rows1To2Lists();
    ListsPrimesConcat(Row0, Row1 + Row2, 2, 103, 331);
  }

  /** Rows 3 to 4 list exactly the primes from 331 below 587. */
  lemma Rows3To4Lists()
    ensures ListsPrimes(Row3 + Row4, 331, 587)
  {
    Row3Lists();
    Row4Lists();
    ListsPrimesConcat(Row3, Row4, 331, 449, 587);
  }

  /** Rows 5 to 6 list exactly the primes from 587 below 853. */
  lemma Rows5To6Lists()
    ensures ListsPrimes(Row5 + Row6, 587, 853)
  {
    Row5Lists();
    Row6Lists();
    ListsPrimesConcat(Row5, Row6, 587, 709, 853);
  }

  /** Rows 3 to 6 list exactly the primes from 331 below 853. */
  lemma Rows3To6Lists()
    ensures ListsPrimes((Row3 + Row4) + (Row5 + Row6), 331, 853)
  {
    Rows3To4Lists();
    Rows5To6Lists();
    ListsPrimesConcat(Row3 + Row4, Row5 + Row6, 331, 587, 853);
  }

  /** Rows 0 to 6 list exactly the primes from 2 below 853. */
  lemma Rows0To6Lists()
    ensures ListsPrimes((Row0 + (Row1 + Row2)) + ((Row3 + Row4) + (Row5 + Row6)), 2, 853)
  {
    Rows0To2Lists();
    Rows3To6Lists();
    ListsPrimesConcat(Row0 + (Row1 + Row2), (Row3 + Row4) + (Row5 + Row6), 2, 331, 853);
  }

  /** Rows 8 to 9 list exactly the primes from 991 below 1229. */
  lemma Rows8To9Lists()
    ensures ListsPrimes(Row8 + Row9, 991, 1229)
  {
    Row8Lists();
    Row9Lists();
    ListsPrimesConcat(Row8, Row9, 991, 1097, 1229);
  }

  /** Rows 7 to 9 list exactly the primes from 853 below 1229. */
  lemma Rows7To9Lists()
    ensures ListsPrimes(Row7 + (Row8 + Row9), 853, 1229)
  {
    Row7Lists();
    Rows8To9Lists();
    ListsPrimesConcat(Row7, Row8 + Row9, 853, 991, 1229);
  }

  /** Rows 10 to 11 list exactly the primes from 1229 below 1483. */
  lemma Rows10To11Lists()
    ensures ListsPrimes(Row10 + Row11, 1229, 1483)
  {
    Row10Lists();
    Row11Lists();
    ListsPrimesConcat(Row10, Row11, 1229, 1361, 1483);
  }

  /** Rows 12 to 13 list exactly the primes from 1483 below 1723. */
  lemma Rows12To13Lists()
    ensures ListsPrimes(Row12 + Row13, 1483, 1723)
  {
    Row12Lists();
    Row13Lists();
    ListsPrimesConcat(Row12, Row13, 1483, 1601, 1723);
  }

  /** Rows 10 to 13 list exactly the primes from 1229 below 1723. */
  lemma Rows10To13Lists()
    ensures ListsPrimes((Row10 + Row11) + (Row12 + Row13), 1229, 1723)
  {
    Rows10To11Lists();
    Rows12To13Lists();
    ListsPrimesConcat(Row10 + Row11, Row12 + Row13, 1229, 1483, 1723);
  }

  /** Rows 7 to 13 list exactly the primes from 853 below 1723. */
  lemma Rows7To13Lists()
    ensures ListsPrimes((Row7 + (Row8 + Row9)) + ((Row10 + Row11) + (Row12 + Row13)), 853, 1723)
  {
    Rows7To9Lists();
    Rows10To13Lists();
    ListsPrimesConcat(Row7 + (Row8 + Row9), (Row10 + Row11) + (Row12 + Row13), 853, 1229, 1723);
  }

  /** Rows 0 to 13 list exactly the primes from 2 below 1723. */
  lemma Rows0To13Lists()
    ensures ListsPrimes(((Row0 + (Row1 + Row2)) + ((Row3 + Row4) + (Row5 + Row6))) + ((Row7 + (Row8
      + Row9)) + ((Row10 + Row11) + (Row12 + Row13))), 2, 1723)
  {
    Rows0To6Lists();
    Rows7To13Lists();
    ListsPrimesConcat((Row0 + (Row1 + Row2)) + ((Row3 + Row4) + (Row5 + Row6)), (Row7 + (Row8 +
      Row9)) + ((Row10 + Row11) + (Row12 + Row13)), 2, 853, 1723);
  }

  /** Rows 15 to 16 list exactly the primes from 1871 below 2129. */
  lemma Rows15To16Lists()
    ensures ListsPrimes(Row15 + Row16, 1871, 2129)
  {
    Row15Lists();
    Row16Lists();
    ListsPrimesConcat(Row15, Row16, 1871, 1999, 2129);
  }

  /** Rows 14 to 16 list exactly the primes from 1723 below 2129. */
  lemma Rows14To16Lists()
    ensures ListsPrimes(Row14 + (Row15 + Row16), 1723, 2129)
  {
    Row14Lists();
    Rows15To16Lists();
    ListsPrimesConcat(Row14, Row15 + Row16, 1723, 1871, 2129);
  }

  /** Rows 17 to 18 list exactly the primes from 2129 below 2383. */
  lemma Rows17To18Lists()
    ensures ListsPrimes(Row17 + Row18, 2129, 2383)
  {
    Row17Lists();
    Row18Lists();
    ListsPrimesConcat(Row17, Row18, 2129, 2269, 2383);
  }

  /** Rows 19 to 20 list exactly the primes from 2383 below 2677. */
  lemma Rows19To20Lists()
    ensures ListsPrimes(Row19 + Row20, 2383, 2677)
  {
    Row19Lists();
    Row20Lists();
    ListsPrimesConcat(Row19, Row20, 2383, 2539, 2677);
  }

  /** Rows 17 to 20 list exactly the primes from 2129 below 2677. */
  lemma Rows17To20Lists()
    ensures ListsPrimes((Row17 + Row18) + (Row19 + Row20), 2129, 2677)
  {
    Rows17To18Lists();
    Rows19To20Lists();
    ListsPrimesConcat(Row17 + Row18, Row19 + Row20, 2129, 2383, 2677);
  }

  /** Rows 14 to 20 list exactly the primes from 1723 below 2677. */
  lemma Rows14To20Lists()
    ensures ListsPrimes((Row14 + (Row15 + Row16)) + ((Row17 + Row18) + (Row19 + Row20)), 1723,
      2677)
  {
    Rows14To16Lists();
    Rows17To20Lists();
    ListsPrimesConcat(Row14 + (Row15 + Row16), (Row17 + Row18) + (Row19 + Row20), 1723, 2129,
      2677);
  }

  /** Rows 22 to 23 list exactly the primes from 2789 below 3067. */
  lemma Rows22To23Lists()
    ensures ListsPrimes(Row22 + Row23, 2789, 3067)
  {
    Row22Lists();
    Row23Lists();
    ListsPrimesConcat(Row22, Row23, 2789, 2917, 3067);
  }

  /** Rows 21 to 23 list exactly the primes from 2677 below 3067. */
  lemma Rows21To23Lists()
    ensures ListsPrimes(Row21 + (Row22 + Row23), 2677, 3067)
  {
    Row21Lists();
    Rows22To23Lists();
    ListsPrimesConcat(Row21, Row22 + Row23, 2677, 2789, 3067);
  }

  /** Rows 24 to 25 list exactly the primes from 3067 below 3359. */
  lemma Rows24To25Lists()
    ensures ListsPrimes(Row24 + Row25, 3067, 3359)
  {
    Row24Lists();
    Row25Lists();
    ListsPrimesConcat(Row24, Row25, 3067, 3221, 3359);
  }

  /** Rows 26 to 27 list exactly the primes from 3359 below 3572. */
  lemma Rows26To27Lists()
    ensures ListsPrimes(Row26 + Row27, 3359, 3572)
  {
    Row26Lists();
    Row27Lists();
    ListsPrimesConcat(Row26, Row27, 3359, 3511, 3572);
  }

  /** Rows 24 to 27 list exactly the primes from 3067 below 3572. */
  lemma Rows24To27Lists()
    ensures ListsPrimes((Row24 + Row25) + (Row26 + Row27), 3067, 3572)
  {
    Rows24To25Lists();
    Rows26To27Lists();
    ListsPrimesConcat(Row24 + Row25, Row26 + Row27, 3067, 3359, 3572);
  }

  /** Rows 21 to 27 list exactly the primes from 2677 below 3572. */
  lemma Rows21To27Lists()
    ensures ListsPrimes((Row21 + (Row22 + Row23)) + ((Row24 + Row25) + (Row26 + Row27)), 2677,
      3572)
  {
    Rows21To23Lists();
    Rows24To27Lists();
    ListsPrimesConcat(Row21 + (Row22 + Row23), (Row24 + Row25) + (Row26 + Row27), 2677, 3067,
      3572);
  }

  /** Rows 14 to 27 list exactly the primes from 1723 below 3572. */
  lemma Rows14To27Lists()
    ensures ListsPrimes(((Row14 + (Row15 + Row16)) + ((Row17 + Row18) + (Row19 + Row20))) + ((Row21
      + (Row22 + Row23)) + ((Row24 + Row25) + (Row26 + Row27))), 1723, 3572)
  {
    Rows14To20Lists();
    Rows21To27Lists();
    ListsPrimesConcat((Row14 + (Row15 + Row16)) + ((Row17 + Row18) + (Row19 + Row20)), (Row21 +
      (Row22 + Row23)) + ((Row24 + Row25) + (Row26 + Row27)), 1723, 2677, 3572);
  }

  /** The table lists exactly the primes below 3572, in increasing order. */
  lemma TableListsPrimes()
    ensures ListsPrimes(First500Primes, 2, 3572)
  {
    Rows0To13Lists();
    Rows14To27Lists();
    ListsPrimesConcat(((Row0 + (Row1 + Row2)) + ((Row3 + Row4) + (Row5 + Row6))) + ((Row7 + (Row8 +
      Row9)) + ((Row10 + Row11) + (Row12 + Row13))), ((Row14 + (Row15 + Row16)) + ((Row17 + Row18)
      + (Row19 + Row20))) + ((Row21 + (Row22 + Row23)) + ((Row24 + Row25) + (Row26 + Row27))), 2,
      1723, 3572);
  }

  /** What the rest of the model uses: the table has 500 entries, runs from 2
      to 3571 in increasing order, holds only primes, and misses none up to 3571. */
  lemma TableFacts()
    ensures |First500Primes| == 500
    ensures First500Primes[0] == 2 && First500Primes[499] == 3571
    ensures forall i, j :: 0 <= i < j < |First500Primes| ==> First500Primes[i] < First500Primes[j]
    ensures forall i :: 0 <= i < |First500Primes| ==> IsPrime(First500Primes[i])
    ensures forall m: nat :: m <= 3571 && IsPrime(m) ==> m in First500Primes
  {
    TableListsPrimes();
    var t := First500Primes;
    assert |t| == 500;
    assert 2 in Row0 && 3571 in Row27;
    assert 2 in t && 3571 in t;
    var first :| 0 <= first < |t| && t[first] == 2;
    var last :| 0 <= last < |t| && t[last] == 3571;
    assert t[0] <= t[first] && t[last] <= t[499];
    forall i | 0 <= i < |First500Primes|
      ensures IsPrime(First500Primes[i])
    {
      assert First500Primes[i] in First500Primes;
    }
  }
}
