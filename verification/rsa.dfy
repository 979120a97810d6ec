/** rsa.py: key derivation, the PKCS#1 v1.5-style padding with its two-byte
    separator, RSAEP/RSADP on single numbers, and the encrypt/decrypt drivers
    that chunk a byte message and reassemble it.

    The random filler os.urandom would supply is a parameter (one filler per
    chunk), so every rule here is deterministic. Messages are byte sequences:
    UTF-8 encoding and decoding are not part of this model. */
module Rsa {
  import opened Arith
  import opened Wrappers
  import opened Utilities
  import opened Bytes
  import Fermat

  datatype PublicKey = PublicKey(n: nat, e: nat)
  datatype PrivateKey = PrivateKey(n: nat, d: nat)

  /** The fixed public exponent. */
  const PublicExponent: nat := 65537

  // ---------------------------------------------------------------------------
  // Keys

  /** get_keys(p, q): n = p*q, phi = (p-1)(q-1), e = 65537, d = mod_inverse(e, phi).
      The only failure is mod_inverse's division by zero, which happens exactly
      when e and phi are not coprime. */
  method GetKeys(p: nat, q: nat) returns (r: Result<(PublicKey, PrivateKey)>)
    requires p >= 1 && q >= 1
    ensures r.Err? <==> !Coprime(PublicExponent, (p - 1) * (q - 1))
    ensures r.Ok? ==> r.value.0 == PublicKey(p * q, PublicExponent)
    ensures r.Ok? ==> r.value.1.n == p * q
    ensures r.Ok? ==> (p - 1) * (q - 1) >= 1
    ensures r.Ok? ==> (PublicExponent * r.value.1.d) % ((p - 1) * (q - 1)) == 1 % ((p - 1) * (q - 1))
    ensures r.Ok? && (p - 1) * (q - 1) >= 2 ==> r.value.1.d < (p - 1) * (q - 1)
  {
    var n := p * q;
    var phi: nat := (p - 1) * (q - 1);
    CoprimeWithZero(PublicExponent);
    var d :- ModInverse(PublicExponent, phi);
    return Ok((PublicKey(n, PublicExponent), PrivateKey(n, d)));
  }

  /** Decryption undoes encryption on every residue modulo the shared modulus. */
  ghost predicate InvertsOnResidues(pub: PublicKey, priv: PrivateKey) {
    && pub.n == priv.n && pub.n >= 1
    && forall v: nat :: v < pub.n ==> ModPow(ModPow(v, pub.e, pub.n), priv.d, pub.n) == v
  }

  /** Keys as get_keys derives them from two distinct primes invert each other. */
  lemma DerivedKeysInvert(p: nat, q: nat, d: nat)
    requires IsPrime(p) && IsPrime(q) && p != q
    requires (PublicExponent * d) % ((p - 1) * (q - 1)) == 1 % ((p - 1) * (q - 1))
    ensures InvertsOnResidues(PublicKey(p * q, PublicExponent), PrivateKey(p * q, d))
  {
    var phi := (p - 1) * (q - 1);
    TotientAtLeastTwo(p, q);
    DivModUnique(1, phi, 0, 1);
    forall v: nat | v < p * q
      ensures ModPow(ModPow(v, PublicExponent, p * q), d, p * q) == v
    {
      Fermat.RsaIdentity(p, q, PublicExponent, d, v);
    }
  }

  /** Two distinct numbers from 2 up give a totient of at least 2, so 1 % phi is 1. */
  lemma TotientAtLeastTwo(p: nat, q: nat)
    requires p >= 2 && q >= 2 && p != q
    ensures (p - 1) * (q - 1) >= 2
  {
    if p == 2 {
      assert (p - 1) * (q - 1) == q - 1;
    } else {
      MulAtLeast(p - 1, q - 1);
    }
  }

  // ---------------------------------------------------------------------------
  // Padding

  /** The filler length pkcs1_v1_5_pad computes. */
  function PaddingLength(msg: seq<byte>, targetLength: int): int {
    targetLength - |msg| - 3
  }

  /** pkcs1_v1_5_pad(msg, targetLength) with `filler` standing for the bytes
      os.urandom returns: 00 02 || filler || 00 00 || msg. The block is one byte
      longer than targetLength, and the filler may contain zero bytes. */
  function Pad(msg: seq<byte>, targetLength: int, filler: seq<byte>): (r: Result<seq<byte>>)
    requires PaddingLength(msg, targetLength) >= 8 ==> |filler| == PaddingLength(msg, targetLength)
    ensures r.Err? <==> PaddingLength(msg, targetLength) < 8
    ensures r.Err? ==> r.error == InsufficientPadding
    ensures r.Ok? ==> |r.value| == targetLength + 1
    ensures r.Ok? ==> r.value[0] == 0 && r.value[1] == 2 && r.value[2..2 + |filler|] == filler
    ensures r.Ok? ==> r.value[2 + |filler|] == 0 && r.value[3 + |filler|] == 0
    ensures r.Ok? ==> r.value[4 + |filler|..] == msg
  {
    if PaddingLength(msg, targetLength) < 8 then Err(InsufficientPadding)
    else Ok([0, 2] + filler + [0, 0] + msg)
  }

  /** Two zero bytes start at index i. */
  predicate ZeroPairAt(b: seq<byte>, i: nat) {
    i + 1 < |b| && b[i] == 0 && b[i + 1] == 0
  }

  /** b.find(b'\x00\x00', start): the first index at or after start where two
      zero bytes begin. */
  function FindZeroPair(b: seq<byte>, start: nat): (r: Option<nat>)
    ensures r.Some? ==> start <= r.value && ZeroPairAt(b, r.value)
    ensures r.Some? ==> forall i: nat :: start <= i < r.value ==> !ZeroPairAt(b, i)
    ensures r.None? ==> forall i: nat :: start <= i ==> !ZeroPairAt(b, i)
    decreases |b| - start
  {
    if start + 1 >= |b| then None
    else if b[start] == 0 && b[start + 1] == 0 then Some(start)
    else FindZeroPair(b, start + 1)
  }

  /** pkcs1_v1_5_unpad: everything after the first 00 00 found from index 2. */
  function Unpad(b: seq<byte>): (r: Result<seq<byte>>)
    ensures r.Err? <==> |b| < 11 || forall i: nat :: 2 <= i ==> !ZeroPairAt(b, i)
    ensures r.Err? ==> r.error == MalformedPadding
    ensures r.Ok? ==> exists i: nat :: 2 <= i && ZeroPairAt(b, i) && r.value == b[i + 2..]
                        && forall j: nat :: 2 <= j < i ==> !ZeroPairAt(b, j)
    ensures r.Ok? ==> |r.value| + 4 <= |b|
  {
    if |b| < 11 then Err(MalformedPadding)
    else match FindZeroPair(b, 2)
      case None => Err(MalformedPadding)
      case Some(i) => Ok(b[i + 2..])
  }

  /** The filler leaves the separator unambiguous: no two adjacent zero bytes
      inside it, and no zero byte at its end. */
  predicate SeparatorSafe(filler: seq<byte>) {
    && (forall i :: 0 <= i < |filler| - 1 ==> !(filler[i] == 0 && filler[i + 1] == 0))
    && (|filler| > 0 ==> filler[|filler| - 1] != 0)
  }

  /** Unpadding recovers the message exactly when the filler is separator-safe;
      the message's own bytes, zeros included, do not matter. */
  lemma PadUnpadRoundTrip(msg: seq<byte>, targetLength: int, filler: seq<byte>)
    requires PaddingLength(msg, targetLength) >= 8
    requires |filler| == PaddingLength(msg, targetLength)
    ensures Unpad(Pad(msg, targetLength, filler).value) == Ok(msg) <==> SeparatorSafe(filler)
  {
    var b := Pad(msg, targetLength, filler).value;
    var sep := |filler| + 2;
    assert ZeroPairAt(b, sep);
    if SeparatorSafe(filler) {
      forall j: nat | 2 <= j < sep
        ensures !ZeroPairAt(b, j)
      {
        if j + 1 < sep {
          assert b[j] == filler[j - 2] && b[j + 1] == filler[j - 1];
        } else {
          assert b[j] == filler[|filler| - 1];
        }
      }
      assert Unpad(b) == Ok(msg);
    } else {
      var j: nat;
      if |filler| > 0 && filler[|filler| - 1] == 0 {
        j := sep - 1;
      } else {
        var i :| 0 <= i < |filler| - 1 && filler[i] == 0 && filler[i + 1] == 0;
        assert b[i + 2] == filler[i] && b[i + 3] == filler[i + 1];
        j := i + 2;
      }
      assert ZeroPairAt(b, j) && j < sep;
      var u := Unpad(b);
      if u.Ok? {
        var k: nat :| 2 <= k && ZeroPairAt(b, k) && u.value == b[k + 2..]
                      && forall j': nat :: 2 <= j' < k ==> !ZeroPairAt(b, j');
        assert k <= j;
        assert |u.value| > |msg|;
      }
    }
  }

  // ---------------------------------------------------------------------------
  // RSAEP / RSADP on numbers

  /** num_encryption: RSAEP, refusing numbers that are not below n. */
  function NumEncryption(num: int, key: PublicKey): (r: Result<nat>)
    requires key.n >= 1
    ensures r.Err? <==> num >= key.n
    ensures r.Err? ==> r.error == ValueTooLarge
    ensures r.Ok? ==> r.value < key.n
  {
    if num >= key.n then Err(ValueTooLarge) else Ok(ModPow(num, key.e, key.n))
  }

  /** num_decryption: RSADP, refusing numbers that are not below n. */
  function NumDecryption(num: int, key: PrivateKey): (r: Result<nat>)
    requires key.n >= 1
    ensures r.Err? <==> num >= key.n
    ensures r.Err? ==> r.error == ValueTooLarge
    ensures r.Ok? ==> r.value < key.n
  {
    if num >= key.n then Err(ValueTooLarge) else Ok(ModPow(num, key.d, key.n))
  }

  /** With inverse keys, decryption undoes encryption on every v in [0, n). */
  lemma NumRoundTrip(v: nat, pub: PublicKey, priv: PrivateKey)
    requires InvertsOnResidues(pub, priv) && v < pub.n
    ensures NumEncryption(v, pub).Ok?
    ensures NumDecryption(NumEncryption(v, pub).value, priv) == Ok(v)
  {
  }

  // ---------------------------------------------------------------------------
  // Chunking and reassembly

  function Min(a: int, b: int): int {
    if a <= b then a else b
  }

  /** The slices msg[i:i+s] for i in range(0, len(msg), s), in order. */
  function Chunks(msg: seq<byte>, s: nat): (cs: seq<seq<byte>>)
    requires s >= 1
    ensures |cs| == (|msg| + s - 1) / s
    ensures forall i :: 0 <= i < |cs| ==> 1 <= |cs[i]| <= s
    decreases |msg|
  {
    if |msg| == 0 then
      DivModUnique(s - 1, s, 0, s - 1);
      []
    else
      var k := Min(s, |msg|);
      ChunkCount(|msg|, s);
      [msg[..k]] + Chunks(msg[k..], s)
  }

  /** Chunk i is the slice msg[i*s : (i+1)*s], cut short at the end. */
  lemma {:induction false} ChunkIsSlice(msg: seq<byte>, s: nat, i: nat)
    requires s >= 1 && i < |Chunks(msg, s)|
    ensures i * s < |msg|
    ensures Chunks(msg, s)[i] == msg[i * s .. Min((i + 1) * s, |msg|)]
    decreases i
  {
    if i == 0 {
      assert 0 * s == 0 && (0 + 1) * s == s;
    } else {
      var rest := msg[s..];
      assert Chunks(msg, s)[i] == Chunks(rest, s)[i - 1];
      ChunkIsSlice(rest, s, i - 1);
      assert (i - 1 + 1) * s == i * s;
      SliceShift(msg, s, i);
    }
  }

  /** Slice i - 1 of msg[s..] is slice i of msg. */
  lemma SliceShift(msg: seq<byte>, s: nat, i: nat)
    requires 1 <= s <= |msg| && i >= 1 && (i - 1) * s < |msg| - s
    ensures i * s < |msg|
    ensures msg[s..][(i - 1) * s .. Min(i * s, |msg| - s)] == msg[i * s .. Min((i + 1) * s, |msg|)]
  {
    assert (i - 1) * s + s == i * s;
    assert i * s + s == (i + 1) * s;
  }

  /** The number of slices taken from a message of length len > 0: one, and
      those of the remaining len - s bytes. */
  lemma ChunkCount(len: nat, s: nat)
    requires len >= 1 && s >= 1
    ensures (len + s - 1) / s == 1 + (len - Min(s, len) + s - 1) / s
  {
    if len <= s {
      DivModUnique(len + s - 1, s, 1, len - 1);
      DivModUnique(s - 1, s, 0, s - 1);
    } else {
      var q := (len - 1) / s;
      DivModUnique(len - 1, s, q, (len - 1) % s);
      DivModUnique(len + s - 1, s, q + 1, (len - 1) % s);
    }
  }

  /** b''.join(parts). */
  function Flatten(parts: seq<seq<byte>>): (r: seq<byte>)
    ensures |parts| > 0 ==> parts[0] <= r
    ensures |r| == 0 <==> forall i :: 0 <= i < |parts| ==> |parts[i]| == 0
    decreases |parts|
  {
    if |parts| == 0 then [] else parts[0] + Flatten(parts[1..])
  }

  /** Joining the slices gives back the message. */
  lemma {:induction false} FlattenChunks(msg: seq<byte>, s: nat)
    requires s >= 1
    ensures Flatten(Chunks(msg, s)) == msg
    decreases |msg|
  {
    if |msg| > 0 {
      var k := Min(s, |msg|);
      FlattenChunks(msg[k..], s);
      assert Chunks(msg, s)[1..] == Chunks(msg[k..], s);
      assert msg == msg[..k] + msg[k..];
    }
  }

  // ---------------------------------------------------------------------------
  // The encrypt and decrypt drivers

  /** block_size in encrypt: one byte less than n needs, so every value of
      block_size bytes is below n while n fits in one byte more. */
  function BlockSize(n: nat): (r: int)
    ensures n >= 1 ==> 0 <= r && Pow(256, r) <= n < Pow(256, r + 1)
  {
    if n >= 1 then ByteLengthBounds(n); ByteLength(n) - 1 else ByteLength(n) - 1
  }

  /** The chunk length: block_size minus the 11 bytes left for padding, so a
      chunk together with its padding is still below n. */
  function ChunkSize(n: nat): (r: int)
    ensures r >= 1 ==> Pow(256, r + 11) <= n
  {
    BlockSize(n) - 11
  }

  /** Every chunk encrypt cuts leaves at least 8 filler bytes, so pad never fails. */
  lemma ChunkPaddingFits(chunk: seq<byte>, n: nat)
    requires |chunk| <= ChunkSize(n)
    ensures PaddingLength(chunk, BlockSize(n)) >= 8
  {
  }

  /** A padded block is ByteLength(n) bytes with a leading zero byte, so as a
      big-endian number it is below n and num_encryption never refuses it. */
  lemma PaddedBelowModulus(padded: seq<byte>, n: nat)
    requires n >= 1 && |padded| == ByteLength(n) && padded[0] == 0
    ensures FromBytes(padded) < n
  {
    FromBytesLeadingZero(padded);
    ByteLengthBounds(n);
  }

  /** One iteration of encrypt's loop: pad the chunk to block_size bytes, read
      the block as a big-endian number and apply RSAEP. */
  function EncryptBlock(chunk: seq<byte>, key: PublicKey, filler: seq<byte>): (c: nat)
    requires ByteLength(key.n) >= 13
    requires |chunk| <= ChunkSize(key.n)
    requires |filler| == PaddingLength(chunk, BlockSize(key.n))
    ensures c < key.n
  {
    ChunkPaddingFits(chunk, key.n);
    var padded := Pad(chunk, BlockSize(key.n), filler).value;
    PaddedBelowModulus(padded, key.n);
    NumEncryption(FromBytes(padded), key).value
  }

  /** The fillers os.urandom would supply to encrypt: one per chunk, each of
      the length pad asks for. */
  predicate FillersFit(msg: seq<byte>, key: PublicKey, fillers: seq<seq<byte>>)
    requires ByteLength(key.n) >= 13
  {
    var chunks := Chunks(msg, ChunkSize(key.n));
    && |fillers| == |chunks|
    && forall i :: 0 <= i < |chunks| ==> |fillers[i]| == PaddingLength(chunks[i], BlockSize(key.n))
  }

  /** encrypt(msg, key) on the message's bytes: one ciphertext per chunk, in order. */
  function Encrypt(msg: seq<byte>, key: PublicKey, fillers: seq<seq<byte>>): (cs: seq<nat>)
    requires ByteLength(key.n) >= 13
    requires FillersFit(msg, key, fillers)
    ensures |cs| == (|msg| + ChunkSize(key.n) - 1) / ChunkSize(key.n)
    ensures |msg| == 0 <==> cs == []
    ensures forall i :: 0 <= i < |cs| ==> cs[i] < key.n
  {
    var chunks := Chunks(msg, ChunkSize(key.n));
    assert |msg| > 0 ==> |chunks| > 0 by {
      if |msg| > 0 {
        ChunkCount(|msg|, ChunkSize(key.n));
      }
    }
    seq(|chunks|, i requires 0 <= i < |chunks| => EncryptBlock(chunks[i], key, fillers[i]))
  }

  /** One iteration of decrypt's loop: RSADP, big-endian bytes of the modulus'
      byte length, then unpad. */
  function DecryptBlock(c: int, key: PrivateKey): (r: Result<seq<byte>>)
    requires key.n >= 1
    ensures c >= key.n ==> r == Err(ValueTooLarge)
    ensures r.Ok? ==> |r.value| + 4 <= ByteLength(key.n)
  {
    var p :- NumDecryption(c, key);
    ByteLengthBounds(key.n);
    Unpad(ToBytes(p, ByteLength(key.n)))
  }

  /** decrypt(blocks, key) on bytes: decrypt every block in order and join the
      payloads; the first failing block raises, so its error is the result. */
  function Decrypt(blocks: seq<int>, key: PrivateKey): (r: Result<seq<byte>>)
    requires key.n >= 1
    ensures r.Ok? <==> forall i :: 0 <= i < |blocks| ==> DecryptBlock(blocks[i], key).Ok?
    ensures r.Err? ==> exists i :: 0 <= i < |blocks| && DecryptBlock(blocks[i], key) == Err(r.error)
                        && forall j :: 0 <= j < i ==> DecryptBlock(blocks[j], key).Ok?
    decreases |blocks|
  {
    if |blocks| == 0 then Ok([])
    else
      var first :- DecryptBlock(blocks[0], key);
      var rest :- Decrypt(blocks[1..], key);
      assert forall i :: 1 <= i < |blocks| ==> blocks[i] == blocks[1..][i - 1];
      Ok(first + rest)
  }

  // ---------------------------------------------------------------------------
  // Round trips

  /** A block encrypted with a separator-safe filler decrypts to its chunk. */
  lemma BlockRoundTrip(chunk: seq<byte>, pub: PublicKey, priv: PrivateKey, filler: seq<byte>)
    requires ByteLength(pub.n) >= 13 && InvertsOnResidues(pub, priv)
    requires |chunk| <= ChunkSize(pub.n)
    requires |filler| == PaddingLength(chunk, BlockSize(pub.n))
    requires SeparatorSafe(filler)
    ensures DecryptBlock(EncryptBlock(chunk, pub, filler), priv) == Ok(chunk)
  {
    var padded := Pad(chunk, BlockSize(pub.n), filler).value;
    var v := FromBytes(padded);
    PaddedBelowModulus(padded, pub.n);
    NumRoundTrip(v, pub, priv);
    ToBytesFromBytes(padded);
    PadUnpadRoundTrip(chunk, BlockSize(pub.n), filler);
  }

  /** Decrypting blocks that each decrypt to a part yields the joined parts. */
  lemma {:induction false} DecryptJoins(blocks: seq<int>, key: PrivateKey, parts: seq<seq<byte>>)
    requires key.n >= 1 && |blocks| == |parts|
    requires forall i :: 0 <= i < |blocks| ==> DecryptBlock(blocks[i], key) == Ok(parts[i])
    ensures Decrypt(blocks, key) == Ok(Flatten(parts))
    decreases |blocks|
  {
    if |blocks| > 0 {
      DecryptJoins(blocks[1..], key, parts[1..]);
    }
  }

  /** decrypt after encrypt is the identity on byte messages, for keys that
      invert each other and fillers that keep the separator unambiguous. */
  lemma EncryptDecryptRoundTrip(msg: seq<byte>, pub: PublicKey, priv: PrivateKey, fillers: seq<seq<byte>>)
    requires ByteLength(pub.n) >= 13 && InvertsOnResidues(pub, priv)
    requires FillersFit(msg, pub, fillers)
    requires forall i :: 0 <= i < |fillers| ==> SeparatorSafe(fillers[i])
    ensures Decrypt(Encrypt(msg, pub, fillers), priv) == Ok(msg)
  {
    var chunks := Chunks(msg, ChunkSize(pub.n));
    var cs := Encrypt(msg, pub, fillers);
    forall i | 0 <= i < |cs|
      ensures DecryptBlock(cs[i], priv) == Ok(chunks[i])
    {
      BlockRoundTrip(chunks[i], pub, priv, fillers[i]);
    }
    DecryptJoins(cs, priv, chunks);
    FlattenChunks(msg, ChunkSize(pub.n));
  }

  /** The whole pipeline: keys derived from two distinct primes with
      d*65537 == 1 modulo (p-1)(q-1), as get_keys returns them, decrypt what
      they encrypt. */
  lemma RsaRoundTrip(p: nat, q: nat, d: nat, msg: seq<byte>, fillers: seq<seq<byte>>)
    requires IsPrime(p) && IsPrime(q) && p != q
    requires (PublicExponent * d) % ((p - 1) * (q - 1)) == 1 % ((p - 1) * (q - 1))
    requires ByteLength(p * q) >= 13
    requires FillersFit(msg, PublicKey(p * q, PublicExponent), fillers)
    requires forall i :: 0 <= i < |fillers| ==> SeparatorSafe(fillers[i])
    ensures Decrypt(Encrypt(msg, PublicKey(p * q, PublicExponent), fillers), PrivateKey(p * q, d)) == Ok(msg)
  {
    DerivedKeysInvert(p, q, d);
    EncryptDecryptRoundTrip(msg, PublicKey(p * q, PublicExponent), PrivateKey(p * q, d), fillers);
  }
}
