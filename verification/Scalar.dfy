/** Carrying an unsigned 256-bit scalar to a contract that only has signed integers. */
module Scalars {
  import opened Prelude

  type Byte = b: nat | b < 256

  function Pow256(n: nat): (r: nat)
    ensures r >= 1
  {
    if n == 0 then 1 else 256 * Pow256(n - 1)
  }

  /** Big-endian value. */
  function ValueOf(bytes: seq<Byte>): nat {
    if bytes == [] then 0 else 256 * ValueOf(bytes[..|bytes| - 1]) + bytes[|bytes| - 1]
  }

  /** Each byte shifted to its place, and the results summed. */
  function ScalarToBigUint(bytes: seq<Byte>): nat {
    if bytes == [] then 0 else bytes[0] * Pow256(|bytes| - 1) + ScalarToBigUint(bytes[1..])
  }

  /** Minimal big-endian bytes; zero takes one byte. */
  function MinimalBytes(n: nat): (r: seq<Byte>)
    ensures r != []
  {
    if n < 256 then [n] else MinimalBytes(n / 256) + [n % 256]
  }

  /** Minimal two's complement bytes of a positive number. */
  function SignedBytes(n: nat): (r: seq<Byte>)
    ensures r != []
  {
    var bytes := MinimalBytes(n);
    if bytes[0] >= 128 then [0] + bytes else bytes
  }

  /** The contract's reading of bytes as a signed integer. */
  function SignedValue(bytes: seq<Byte>): int
    requires bytes != []
  {
    if bytes[0] >= 128 then ValueOf(bytes) - Pow256(|bytes|) else ValueOf(bytes)
  }

  /** The two halves back to back, and where to cut. */
  datatype Wire = Wire(bytes: seq<Byte>, firstLen: nat)

  /** `None` where the length underflows or the sign of a half is not positive. */
  function Encode(scalar: nat): Option<Wire> {
    var bytes := MinimalBytes(scalar);
    if |bytes| < 16 then None
    else
      var split := |bytes| - 16;
      var upper, lower := ValueOf(bytes[..split]), ValueOf(bytes[split..]);
      if upper == 0 || lower == 0 then None
      else Some(Wire(SignedBytes(upper) + SignedBytes(lower), |SignedBytes(upper)|))
  }

  function Decode(w: Wire): Option<int> {
    if 0 < w.firstLen < |w.bytes|
    then Some(SignedValue(w.bytes[..w.firstLen]) * Pow256(16) + SignedValue(w.bytes[w.firstLen..]))
    else None
  }

  // ----- values of byte strings -----

  lemma {:induction false} ValueOfJoin(a: seq<Byte>, b: seq<Byte>)
    ensures ValueOf(a + b) == ValueOf(a) * Pow256(|b|) + ValueOf(b)
    decreases |b|
  {
    if b == [] {
      assert a + b == a;
    } else {
      var front, last := b[..|b| - 1], b[|b| - 1];
      ValueOfJoin(a, front);
      assert (a + b)[..|a + b| - 1] == a + front;
      Distribute(ValueOf(a), Pow256(|front|), ValueOf(front));
    }
  }

  lemma Distribute(v: nat, p: nat, w: nat)
    ensures 256 * (v * p + w) == v * (256 * p) + 256 * w
  {
  }

  lemma {:induction false} ValueBelow(b: seq<Byte>)
    ensures ValueOf(b) < Pow256(|b|)
    decreases |b|
  {
    if b != [] {
      ValueBelow(b[..|b| - 1]);
    }
  }

  /** Summing the shifted bytes is big-endian decoding. */
  lemma {:induction false} ScalarIsBigEndian(bytes: seq<Byte>)
    ensures ScalarToBigUint(bytes) == ValueOf(bytes)
    decreases |bytes|
  {
    if bytes != [] {
      ScalarIsBigEndian(bytes[1..]);
      ValueOfJoin([bytes[0]], bytes[1..]);
      assert [bytes[0]] + bytes[1..] == bytes;
      assert ValueOf([bytes[0]]) == bytes[0];
    }
  }

  lemma {:induction false} MinimalValue(n: nat)
    ensures ValueOf(MinimalBytes(n)) == n
  {
    if n >= 256 {
      MinimalValue(n / 256);
      var b := MinimalBytes(n);
      assert b[..|b| - 1] == MinimalBytes(n / 256);
    }
  }

  /** No shorter byte string has the value. */
  lemma {:induction false} MinimalLength(n: nat)
    ensures |MinimalBytes(n)| > 1 ==> n >= Pow256(|MinimalBytes(n)| - 1)
  {
    if n >= 256 {
      MinimalLength(n / 256);
      assert n >= 256 * (n / 256);
    }
  }

  lemma SignedRoundTrip(n: nat)
    ensures SignedValue(SignedBytes(n)) == n
  {
    MinimalValue(n);
    var b := MinimalBytes(n);
    ValueOfJoin([0], b);
    assert ValueOf([0]) == 0;
  }

  lemma LeadingByte(bytes: seq<Byte>)
    requires bytes != []
    ensures var p := Pow256(|bytes| - 1); bytes[0] * p <= ValueOf(bytes) < bytes[0] * p + p
  {
    ValueOfJoin([bytes[0]], bytes[1..]);
    assert [bytes[0]] + bytes[1..] == bytes;
    assert ValueOf([bytes[0]]) == bytes[0];
    ValueBelow(bytes[1..]);
  }

  lemma HalfRange(b: nat, p: nat, n: nat)
    requires b < 256 && b * p <= n < b * p + p
    ensures b >= 128 <==> 2 * n >= 256 * p
  {
    if b >= 128 {
      MulMonotone(128, b, p);
    } else {
      MulMonotone(b + 1, 128, p);
    }
  }

  /** The signed bytes hold the number with its sign bit clear, and one byte less would not. */
  lemma SignedMinimal(n: nat)
    ensures var b := SignedBytes(n); 2 * n < Pow256(|b|) && (|b| > 1 ==> 2 * n >= Pow256(|b| - 1))
  {
    var m := MinimalBytes(n);
    MinimalValue(n);
    MinimalLength(n);
    LeadingByte(m);
    ValueBelow(m);
    HalfRange(m[0], Pow256(|m| - 1), n);
  }

  // ----- the split -----

  lemma {:induction false} Pow256Monotone(a: nat, b: nat)
    requires a <= b
    ensures Pow256(a) <= Pow256(b)
    decreases b
  {
    if a < b { Pow256Monotone(a, b - 1); }
  }

  /** Cutting `k` bytes off the end divides by 256^k. */
  lemma SplitValues(scalar: nat, k: nat)
    requires |MinimalBytes(scalar)| >= k
    ensures
      var b := MinimalBytes(scalar);
      var upper, lower := ValueOf(b[..|b| - k]), ValueOf(b[|b| - k..]);
      scalar == upper * Pow256(k) + lower && lower < Pow256(k)
  {
    var b := MinimalBytes(scalar);
    var n := |b| - k;
    MinimalValue(scalar);
    ValueOfJoin(b[..n], b[n..]);
    assert b[..n] + b[n..] == b;
    ValueBelow(b[n..]);
  }

  lemma HalvesUnique(p: nat, u: nat, l: nat)
    requires l < p
    ensures (u * p + l) / p == u && (u * p + l) % p == l
  {
    var x := u * p + l;
    assert x == p * (x / p) + x % p;
    QuotientsEqual(p, u, l, x / p, x % p);
  }

  lemma QuotientsEqual(p: nat, u: nat, l: nat, v: nat, r: nat)
    requires u * p + l == v * p + r && l < p && r < p
    ensures u == v && l == r
  {
    if u < v {
      MulStep(p, u, v);
    } else if v < u {
      MulStep(p, v, u);
    }
  }

  lemma MulStep(p: nat, u: nat, v: nat)
    requires u < v
    ensures v * p >= u * p + p
  {
    assert v * p == (v - u - 1) * p + (u + 1) * p;
  }

  /** Both halves are non-zero exactly when the number is at least `p` and not a multiple of it. */
  lemma HalvesNonZero(p: nat, u: nat, l: nat)
    requires l < p
    ensures u * p + l >= p && (u * p + l) % p != 0 <==> u != 0 && l != 0
  {
    HalvesUnique(p, u, l);
    if u > 0 {
      MulStep(p, 0, u);
    }
  }

  lemma TooShort(scalar: nat, k: nat)
    requires |MinimalBytes(scalar)| < k
    ensures scalar < Pow256(k)
  {
    MinimalValue(scalar);
    ValueBelow(MinimalBytes(scalar));
    Pow256Monotone(|MinimalBytes(scalar)|, k);
  }

  /** Whether cutting `k` bytes off leaves two non-zero halves. */
  predicate SplitsAt(scalar: nat, k: nat) {
    var b := MinimalBytes(scalar);
    |b| >= k && ValueOf(b[..|b| - k]) != 0 && ValueOf(b[|b| - k..]) != 0
  }

  lemma SplitsIff(scalar: nat, k: nat)
    ensures SplitsAt(scalar, k) <==> scalar >= Pow256(k) && scalar % Pow256(k) != 0
  {
    var b := MinimalBytes(scalar);
    if |b| < k {
      TooShort(scalar, k);
    } else {
      SplitValues(scalar, k);
      HalvesNonZero(Pow256(k), ValueOf(b[..|b| - k]), ValueOf(b[|b| - k..]));
    }
  }

  /** Encoding succeeds exactly for scalars of at least 2^128 whose low 128 bits are not all zero. */
  lemma EncodesIff(scalar: nat)
    ensures Encode(scalar).Some? <==> scalar >= Pow256(16) && scalar % Pow256(16) != 0
  {
    SplitsIff(scalar, 16);
    assert Encode(scalar).Some? <==> SplitsAt(scalar, 16);
  }

  /** Whatever is encoded decodes to the same scalar. */
  lemma EncodeDecode(scalar: nat)
    requires Encode(scalar).Some?
    ensures Decode(Encode(scalar).value) == Some(scalar)
  {
    var b := MinimalBytes(scalar);
    SplitValues(scalar, 16);
    var upper, lower := ValueOf(b[..|b| - 16]), ValueOf(b[|b| - 16..]);
    var w := Encode(scalar).value;
    SignedRoundTrip(upper);
    SignedRoundTrip(lower);
    assert w.bytes[..w.firstLen] == SignedBytes(upper) && w.bytes[w.firstLen..] == SignedBytes(lower);
  }

  /** A 32-byte scalar needs at most 17 bytes for each half. */
  lemma HalvesFit(bytes: seq<Byte>)
    requires |bytes| == 32 && Encode(ScalarToBigUint(bytes)).Some?
    ensures
      var w := Encode(ScalarToBigUint(bytes)).value;
      1 <= w.firstLen <= 17 && 1 <= |w.bytes| - w.firstLen <= 17
  {
    var scalar := ScalarToBigUint(bytes);
    ScalarIsBigEndian(bytes);
    ValueBelow(bytes);
    MinimalLength(scalar);
    var b := MinimalBytes(scalar);
    if |b| > 32 {
      Pow256Monotone(32, |b| - 1);
    }
    var upper, lower := b[..|b| - 16], b[|b| - 16..];
    ReencodedLength(upper);
    ReencodedLength(lower);
  }

  lemma ReencodedLength(bytes: seq<Byte>)
    requires 0 < |bytes|
    ensures |MinimalBytes(ValueOf(bytes))| <= |bytes|
  {
    ValueBelow(bytes);
    var m := MinimalBytes(ValueOf(bytes));
    MinimalLength(ValueOf(bytes));
    if |m| > |bytes| {
      Pow256Monotone(|bytes|, |m| - 1);
    }
  }

  /** Small scalars: the subtraction of 16 from the length underflows below 2^120. */
  lemma SmallScalarUnderflows(scalar: nat)
    ensures |MinimalBytes(scalar)| < 16 <==> scalar < Pow256(15)
  {
    MinimalLength(scalar);
    MinimalValue(scalar);
    ValueBelow(MinimalBytes(scalar));
    if |MinimalBytes(scalar)| < 16 {
      Pow256Monotone(|MinimalBytes(scalar)|, 15);
    } else {
      Pow256Monotone(15, |MinimalBytes(scalar)| - 1);
    }
  }

  /** The contract's multiplier is 2^128. */
  lemma MultiplierIsPow()
    ensures Pow256(16) == 340282366920938463463374607431768211456
  {
    assert Pow256(4) == 4294967296;
    assert Pow256(8) == 18446744073709551616;
    assert Pow256(12) == 79228162514264337593543950336;
  }
}
