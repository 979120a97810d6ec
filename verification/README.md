# RSA from scratch: arithmetic, primality and block codec

This project models the core of a small hand-written RSA implementation. The core has four parts:

- **Modular arithmetic** (`my_utilities.py`): `montgomery_ladder` computes x^k mod N. `mod_inverse` is the iterative extended Euclidean algorithm. Elsewhere the model writes x^k mod N as the function `Utilities.ModPow` wherever the code calls `montgomery_ladder` (rsa.py:94, rsa.py:114, genetrate_prime.py:101, genetrate_prime.py:105). `Utilities.MontgomeryLadder` models the ladder's loop itself and is proved to return exactly `ModPow`'s value.
- **Primality** (`genetrate_prime.py`, `low_level_prime.py`):
  - trial division against the hard-coded table `FIRST500PRIMES`;
  - a Miller-Rabin test with 64 rounds, including its inner `surely_composite`;
  - `check_prime`, which combines the two;
  - the `get_prime` retry loop;
  - `get_n_primes`, the trial-division generator that produced the table.
- **Key derivation** (`rsa.py`): `get_keys` computes n = p*q, phi = (p-1)(q-1), e = 65537 and d = e^-1 mod phi.
- **Padding and block codec** (`rsa.py`):
  - `pkcs1_v1_5_pad` and `pkcs1_v1_5_unpad`, a variant of the RSAES-PKCS1-v1_5 encoding of section 7.2.1 of RFC 8017;
  - `num_encryption` and `num_decryption` (RSAEP and RSADP);
  - the `encrypt` and `decrypt` drivers. They cut the message into chunks, pad each chunk, convert between bytes and integers big-endian (I2OSP/OS2IP, sections 4.1 and 4.2 of RFC 8017), and reassemble the result in order.

Every random draw of the Python code becomes a parameter:

- the bytes `os.urandom` gives as padding filler, one filler per chunk;
- the Miller-Rabin witnesses `random.randint(2, n - 2)`;
- the candidates `random.getrandbits(bits)`.

This makes every rule deterministic. The exceptions the core raises on its callers' inputs (padding too short or malformed, a number not below the modulus, the division by zero in `mod_inverse`) become the `Err` cases of a `Result` (`wrappers.dfy`). A zero modulus is excluded by preconditions instead; see "## Left out".

Modules, one per file:

| module | file | models |
|---|---|---|
| `Wrappers` | wrappers.dfy | `Result`/`Option` and the errors the Python code raises |
| `Arith` | arith.dfy | divisibility, primality, gcd facts, powers |
| `Fermat` | fermat.dfy | Fermat's little theorem, square roots of 1 modulo a prime, the RSA identity |
| `Utilities` | utilities.dfy | `montgomery_ladder`, `mod_inverse` |
| `Bytes` | bytes.dfy | `int.from_bytes`, `int.to_bytes`, `bit_length` |
| `PrimeTable` | prime_table.dfy | `FIRST500PRIMES` and the proof that it lists exactly the primes up to 3571 |
| `GeneratePrime` | generate_prime.dfy | `check_low_level_prime`, `check_miller_rabin`, `check_prime`, `get_prime` |
| `LowLevelPrime` | low_level_prime.dfy | `get_n_primes`, and `main`'s claim that it yields the table |
| `Rsa` | rsa.dfy | `get_keys`, padding, `num_encryption`/`num_decryption`, `encrypt`/`decrypt` |

The model follows what the code does where it departs from its own comments and from the standards it names:

- The padded block is `00 02 || filler || 00 00 || msg`, `target_length + 1` bytes in all (rsa.py:41-50), although the docstring at rsa.py:34 calls `target_length` the desired length of the padded message.
- The comment at rsa.py:46 speaks of non-zero random bytes, but `os.urandom` does not exclude zero. Section 7.2.1 of RFC 8017 requires a non-zero filler and a one-byte separator; the code uses a two-byte separator. Unpadding therefore recovers the message exactly when the filler has no two adjacent zero bytes and does not end in a zero byte (`Rsa.PadUnpadRoundTrip`).
- `surely_composite` squares up to k times (genetrate_prime.py:104), where section C.3.1 of FIPS 186-4 squares a - 1 times (a being its name for k). The witness notion `GeneratePrime.IsWitness` therefore ranges over j = 0..k.
- `get_prime` does not set the top bit, so a result may be far below 2^(bits-1) (`GeneratePrime.GetPrimeTopBitFree`).
- `mod_inverse` has no explicit error path; its docstring (my_utilities.py:37) only notes that the inverse exists only for coprime inputs. When gcd(a, m) > 1 the remainder chain reaches m == 0 while a > 1, and `a // m` raises ZeroDivisionError. The model returns `Err(DivisionByZero)` in exactly that case.

## Model

| member | source | states |
|---|---|---|
| Utilities.ModPow | my_utilities.py:1-31 | x^k mod N, in [0, N). It stands in for every call of `montgomery_ladder` (rsa.py:94, rsa.py:114, genetrate_prime.py:101, genetrate_prime.py:105); `Utilities.MontgomeryLadder` is proved to return exactly this value |
| Utilities.MontgomeryLadder | my_utilities.py:1-31 | returns x^k mod N for every integer x, k >= 0 and N >= 1, so the result is in [0, N); the loop keeps r0 = x^j and r1 = x^(j+1) modulo N for the value j of the bits read so far |
| Utilities.Binary | my_utilities.py:22 | `bin(k)[2:]` is a non-empty string of binary digits with no leading zero ("0" for k == 0) whose value is k, so the ladder's loop runs at least once |
| Utilities.ModPowReducesBase | my_utilities.py:15 | reducing the base modulo N first does not change x^k mod N |
| Utilities.ModPowZeroExponent | my_utilities.py:18-31 | k == 0 yields 1 mod N: 1, or 0 when N == 1 |
| Utilities.ModInverse | my_utilities.py:34-56 | a <= 1 returns 1; fails with a division by zero exactly when a > 1 and gcd(a, m) != 1; otherwise a*d == 1 (mod m) and, for m >= 2, 0 <= d < m |
| Utilities.EuclidIteration | my_utilities.py:50-53 | one iteration keeps the Bezout relations x*a0 == a and y*a0 == m modulo m0, and keeps the coefficients small and of opposite signs |
| Utilities.Shift | my_utilities.py:56 | the final shift of a negative coefficient by m0 lands in [0, m0) |
| Utilities.InverseResidue | my_utilities.py:47-56 | the coefficient left when the loop reaches a == 1, once shifted, inverts a modulo m0 |
| Arith.CoprimeStep | my_utilities.py:51-52 | replacing (a, m) by (m, a % m) preserves coprimality |
| Bytes.FromBytes | rsa.py:142 | `int.from_bytes(b, 'big')`: the big-endian value of b, below 256^len(b) |
| Bytes.ToBytes | rsa.py:168 | `to_bytes(v, len)` gives len bytes that decode back to v |
| Bytes.ToBytesFromBytes | rsa.py:142-168 | encoding the big-endian value of a block at the block's length gives the block back |
| Bytes.FromBytesLeadingZero | rsa.py:142 | a leading zero byte does not change the big-endian value |
| Bytes.BitLength | rsa.py:136 | `bit_length` is the least r with n < 2^r, and 0 exactly for n == 0 |
| Bytes.ByteLength | rsa.py:136-168 | `(n.bit_length() + 7) // 8`: the fewest bytes holding n's bits (8 r covers the bit length with fewer than 8 bits to spare), 0 exactly for n == 0 |
| Bytes.ByteLengthBounds | rsa.py:136-168 | n fits in (bit_length + 7) // 8 bytes, and is at least 256^(that length - 1) |
| Fermat.FermatUnit | genetrate_prime.py:101-110 | a^(p-1) == 1 modulo a prime p that does not divide a |
| Fermat.SquareRootOfOne | genetrate_prime.py:102-109 | modulo a prime the only square roots of 1 are 1 and p - 1 |
| Fermat.RsaIdentity | rsa.py:16-25 | for distinct primes p, q and e*d == 1 mod (p-1)(q-1), (v^e mod pq)^d mod pq == v for every v < pq |
| PrimeTable.TableFacts | genetrate_prime.py:4-32 | FIRST500PRIMES has 500 entries, starts at 2, ends at 3571, is strictly ascending, holds only primes and misses no prime up to 3571 |
| PrimeTable.TableListsPrimes | genetrate_prime.py:4-32 | the table lists exactly the primes in [2, 3572), in increasing order |
| PrimeTable.SieveDecides | genetrate_prime.py:48-51 | from 60 to 3599 a number is prime exactly when no prime below 60 divides it |
| PrimeTable.ScanSound | genetrate_prime.py:5-32 | a stretch of a table row that survives trial division by the primes below 60 lists exactly the primes of its range |
| PrimeTable.ListsPrimesConcat | genetrate_prime.py:5-32 | lists of the primes of two adjacent ranges join into the list of their union |
| GeneratePrime.CheckLowLevelPrime | genetrate_prime.py:35-51 | rejects exactly when some listed i divides the candidate with i^2 <= candidate |
| GeneratePrime.LowLevelKeepsPrimes | genetrate_prime.py:48-51 | with entries >= 2, never rejects a prime, 0 or 1 |
| GeneratePrime.LowLevelSound | genetrate_prime.py:48-51 | a candidate in [2, (bound+1)^2) that passes a list holding every prime up to bound is prime |
| GeneratePrime.TableShaped | genetrate_prime.py:4-32 | FIRST500PRIMES starts with 2, has entries >= 2 and holds every prime up to 3571 |
| GeneratePrime.TableCheck | genetrate_prime.py:132 | `check_low_level_prime(n, FIRST500PRIMES)` as check_prime calls it; `TableCheckDecides` states which candidates it accepts |
| GeneratePrime.TableCheckDecides | genetrate_prime.py:5-51 | against FIRST500PRIMES the low-level check accepts every prime, 0 and 1, and accepts only primes in [2, 3572^2) |
| GeneratePrime.Decompose | genetrate_prime.py:78-81 | ends with m odd and m*2^k == n - 1 |
| GeneratePrime.SquareChain | genetrate_prime.py:104-110 | the squaring loop: square x up to k times, True on reaching 1, False on reaching n - 1, True when neither occurs; `SquareChainMeans` states what it decides |
| GeneratePrime.SquareChainMeans | genetrate_prime.py:104-110 | the squaring loop returns False exactly when one of the next k squares is n - 1 |
| GeneratePrime.SurelyComposite | genetrate_prime.py:83-110 | `surely_composite(a, m, k, n)`: reports composite only when a^m mod n is neither 1 nor n - 1, and then by the squaring loop; `SurelyCompositeMeans` states what it decides |
| GeneratePrime.SurelyCompositeMeans | genetrate_prime.py:101-110 | `surely_composite(a, m, k, n)` is True exactly when a^m != 1 and none of a^(m 2^j), j = 0..k, is n - 1 modulo n |
| GeneratePrime.PrimeHasNoWitness | genetrate_prime.py:101-110 | for a prime n no a in [2, n - 2] makes `surely_composite` True |
| GeneratePrime.AllRoundsPass | genetrate_prime.py:113-117 | the rounds pass exactly when no witness is reported composite |
| GeneratePrime.CheckMillerRabin | genetrate_prime.py:55-117 | n <= 1 gives False; 2 and 3 give True; from 4 on, False exactly when some drawn a is a witness |
| GeneratePrime.MillerRabinKeepsPrimes | genetrate_prime.py:101-117 | a prime passes whatever witnesses are drawn from [2, n - 2]; 2 and 3 pass whatever witnesses are given |
| GeneratePrime.CheckPrime | genetrate_prime.py:120-142 | a number that passes is at least 2 and is 2 or odd |
| GeneratePrime.CheckPrimeCorrect | genetrate_prime.py:120-142 | every prime passes when its witnesses lie in [2, n - 2] (no condition for 2 and 3, which draw none); with a table holding every prime up to bound, only primes below (bound+1)^2 pass |
| GeneratePrime.SmallPrimesPass | genetrate_prime.py:72-75 | 2 and 3 pass `check_prime` whatever the 64 witnesses are, since the Miller-Rabin test accepts them before drawing any |
| GeneratePrime.GetPrimeFrom | genetrate_prime.py:156-157 | the retry loop returns the first remaining candidate that passes, and none exactly when none passes |
| GeneratePrime.GetPrime | genetrate_prime.py:145-159 | returns the first drawn candidate that passes `check_prime`, which lies in [2, 2^bits); none exactly when no draw passes |
| GeneratePrime.GetPrimeSound | genetrate_prime.py:145-159 | with 2^bits <= (bound+1)^2 and a table holding every prime up to bound, the result is prime |
| GeneratePrime.GetPrimeFindsPrime | genetrate_prime.py:155-157 | the loop returns a candidate no later than the first prime candidate whose witnesses lie in [2, n - 2], or that is 2 or 3 |
| GeneratePrime.GetPrimeTopBitFree | genetrate_prime.py:155 | asked for 8 bits, `get_prime` may return 3: the top bit is not forced |
| LowLevelPrime.TrialDivision | low_level_prime.py:14-18 | with every prime below cur listed, cur is prime exactly when no listed prime divides it |
| LowLevelPrime.SieveStep | low_level_prime.py:14-18 | the for/else appends cur exactly when cur is prime |
| LowLevelPrime.NextOdd | low_level_prime.py:13-19 | the loop keeps `primes` ascending and equal to the set of primes below the odd number cur |
| LowLevelPrime.PrimeBeyond | low_level_prime.py:13-19 | there is a prime from cur up to the product of the listed primes plus one, so the loop ends |
| LowLevelPrime.GetNPrimes | low_level_prime.py:1-21 | returns N primes for N >= 1 and [2] for N <= 1, starting with 2, strictly ascending, missing no prime up to the last |
| LowLevelPrime.FirstPrimesUnique | low_level_prime.py:1-21 | two lists of the first n primes are equal |
| LowLevelPrime.FirstPrimesListed | low_level_prime.py:1-21 | a list of the first primes, as get_n_primes returns, is exactly the ascending list of the primes from 2 to its last entry, and conversely, so it matches the description of FIRST500PRIMES |
| LowLevelPrime.GenerateTable | low_level_prime.py:25-26 | `get_n_primes(500)` is exactly FIRST500PRIMES |
| Rsa.GetKeys | rsa.py:5-25 | returns ((pq, 65537), (pq, d)) with 65537*d == 1 mod (p-1)(q-1), and d below phi when phi >= 2; fails exactly when gcd(65537, phi) != 1 |
| Rsa.DerivedKeysInvert | rsa.py:16-25 | keys derived from two distinct primes invert each other on every residue modulo pq |
| Rsa.PaddingLength | rsa.py:41 | the filler length target_length - len(msg) - 3; `Pad` fails exactly when it is below 8 and otherwise uses a filler of this length |
| Rsa.Pad | rsa.py:28-50 | fails exactly when target_length - len(msg) - 3 < 8; otherwise gives 00 02, the filler, 00 00 and the message, target_length + 1 bytes in all |
| Rsa.FindZeroPair | rsa.py:67 | `find(b'\x00\x00', start)` gives the first index from start where two zero bytes begin, or none |
| Rsa.Unpad | rsa.py:53-75 | fails exactly when the input is shorter than 11 bytes or has no 00 00 at index >= 2; otherwise gives the suffix after the first such pair, at least 4 bytes shorter |
| Rsa.PadUnpadRoundTrip | rsa.py:41-73 | unpad(pad(msg)) == msg exactly when the filler has no 00 00 pair and does not end in 00, whatever msg holds |
| Rsa.NumEncryption | rsa.py:78-94 | rejects num >= n, otherwise gives a value in [0, n) |
| Rsa.NumDecryption | rsa.py:97-114 | rejects num >= n, otherwise gives a value in [0, n) |
| Rsa.NumRoundTrip | rsa.py:90-114 | with inverse keys, decryption undoes encryption on every v < n |
| Rsa.Chunks | rsa.py:139-140 | the slices msg[i:i+s] for i in range(0, len, s): ceil(len/s) non-empty slices of at most s bytes |
| Rsa.ChunkIsSlice | rsa.py:139-140 | slice i is msg[i*s:(i+1)*s], cut at the end |
| Rsa.Flatten | rsa.py:173 | `b''.join(parts)`: begins with the first part and is empty exactly when every part is; `FlattenChunks` shows it undoes the chunking |
| Rsa.FlattenChunks | rsa.py:139-173 | joining the slices gives back the message |
| Rsa.BlockSize | rsa.py:136 | block_size, one byte less than n needs: for n >= 1 every block_size-byte value is below n, and n fits in block_size + 1 bytes |
| Rsa.ChunkSize | rsa.py:139 | the chunk step block_size - 11: when positive, a chunk with its 11 padding bytes still stays below n; `ChunkPaddingFits` shows the padding fits |
| Rsa.ChunkPaddingFits | rsa.py:139-141 | every chunk leaves at least 8 filler bytes, so pad never fails |
| Rsa.PaddedBelowModulus | rsa.py:136-143 | a byte_len(n)-byte block with a leading zero is below n, so `num_encryption` never fails |
| Rsa.EncryptBlock | rsa.py:140-144 | each ciphertext is below n |
| Rsa.Encrypt | rsa.py:117-145 | one ciphertext per chunk, each below n; an empty message gives [] |
| Rsa.DecryptBlock | rsa.py:165-170 | a block >= n is rejected; a decrypted payload is at least 4 bytes shorter than byte_len(n) |
| Rsa.Decrypt | rsa.py:148-176 | succeeds exactly when every block decrypts, and otherwise fails with the error of the first block that fails |
| Rsa.DecryptJoins | rsa.py:165-173 | the result is the per-block payloads joined in order |
| Rsa.BlockRoundTrip | rsa.py:139-170 | a chunk encrypted with a separator-safe filler decrypts to itself |
| Rsa.EncryptDecryptRoundTrip | rsa.py:117-176 | decrypt(encrypt(msg)) == msg on bytes, for inverse keys and separator-safe fillers |
| Rsa.RsaRoundTrip | rsa.py:5-176 | with keys from `get_keys` on two distinct primes, byte_len(pq) >= 13 and separator-safe fillers, decrypt(encrypt(msg)) == msg |

## Left out

- Utilities.MontgomeryLadder: requires N >= 1, so the ZeroDivisionError that `x %= N` raises for a zero modulus (my_utilities.py:15) is not modelled; no caller in the core passes a zero modulus (moduli are products of primes, and the Miller-Rabin modulus is at least 4).
- Utilities.MontgomeryLadder: takes the exponent k as a natural number, so a negative k is not modelled; in Python `bin(k)[2:]` then starts with 'b', which takes the else branch of the loop and yields a value that is not x^k mod N. No caller in the core passes a negative exponent (65537, d >= 0, m and 2).
- Rsa.NumEncryption, Rsa.NumDecryption, Rsa.DecryptBlock, Rsa.Decrypt: require n >= 1 for the same reason; with n == 0 the Python code rejects every non-negative number as too big and divides by zero on a negative one.
- main.py: the interactive menus, input validation, file save and load, timestamps and the ciphertext line format are I/O and not part of this model.
- `low_level_prime.main` printing its list: only the value printed is modelled (`LowLevelPrime.GenerateTable`).
- Randomness: `os.urandom`, `random.randint` and `random.getrandbits` become parameters (fillers, witnesses, candidates). The 1 - 4^-rounds error bound of Miller-Rabin is a probabilistic claim and is not stated.
- GeneratePrime.GetPrime: the unbounded retry loop of `get_prime` is modelled over a finite sequence of draws, and `None` stands for "still looping after these draws"; its termination is not modelled.
- GeneratePrime.CheckPrime: takes the trial-division table as a parameter with the shape FIRST500PRIMES has (`TableShaped`) instead of naming the constant. This keeps proofs about it from unfolding the 500 entries; `TableCheckDecides` states the low-level check on the constant itself.
- UTF-8 `encode`/`decode` in `encrypt` and `decrypt`: messages are byte sequences.
- Rsa.Encrypt: requires byte_len(n) >= 13. For smaller moduli the Python chunk step is 0 (a ValueError) or negative (an empty list); that misbehaviour is not modelled.
- Rsa.GetKeys: states the inverse property for any p, q >= 1 but does not check that p and q are prime, as the Python code does not; `DerivedKeysInvert` adds the primality assumption.
- Utilities.ModInverse: models inputs as natural numbers; negative arguments are never passed by the core.
- Python's arbitrary-precision integers match Dafny's `int`, so no width or wrap-around is modelled.
