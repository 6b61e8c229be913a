/** Key-evolving signatures: the sum composition over a binary tree of seeds.

    A tree of height `h` over a seed has `2^h` leaves.  The specification is the
    recursive tree; the code walks it with loops, popcounts, greedy subtraction
    and bit tests. */
module Bits {
  import opened Prelude

  /** Bitwise exclusive or of two naturals. */
  function Xor(a: nat, b: nat): nat
    decreases a + b
  {
    if a == 0 && b == 0 then 0 else 2 * Xor(a / 2, b / 2) + (a % 2 + b % 2) % 2
  }

  function CountOnes(n: nat): nat {
    if n == 0 then 0 else n % 2 + CountOnes(n / 2)
  }

  /** The test `n & (1 << k) != 0`. */
  predicate Bit(n: nat, k: nat) {
    n / Pow2(k) % 2 == 1
  }

  function TrailingOnes(n: nat): nat {
    if n % 2 == 1 then 1 + TrailingOnes(n / 2) else 0
  }

  lemma {:induction false} XorSelf(n: nat)
    ensures Xor(n, n) == 0
  {
    if n > 0 { XorSelf(n / 2); }
  }

  /** Incrementing flips the trailing ones and the zero above them, nothing else. */
  lemma {:induction false} IncrementFlips(n: nat)
    ensures CountOnes(Xor(n, n + 1)) == TrailingOnes(n) + 1
  {
    var x := Xor(n / 2, (n + 1) / 2);
    assert Xor(n, n + 1) == 2 * x + 1;
    assert CountOnes(2 * x + 1) == 1 + CountOnes(x);
    if n % 2 == 0 {
      XorSelf(n / 2);
    } else {
      IncrementFlips(n / 2);
      assert (n + 1) / 2 == n / 2 + 1;
    }
  }

  lemma {:induction false} AllOnes(j: nat)
    ensures TrailingOnes(Pow2(j) - 1) == j
  {
    if j > 0 {
      assert (Pow2(j) - 1) / 2 == Pow2(j - 1) - 1;
      AllOnes(j - 1);
    }
  }

  lemma {:induction false} TopBitIrrelevant(j: nat, m: nat)
    requires m + 1 < Pow2(j)
    ensures TrailingOnes(Pow2(j) + m) == TrailingOnes(m)
  {
    if m % 2 == 1 {
      assert (Pow2(j) + m) / 2 == Pow2(j - 1) + m / 2;
      TopBitIrrelevant(j - 1, m / 2);
    }
  }

  lemma DivisionBounds(a: nat, b: nat, c: nat)
    requires b > 0
    ensures a / b >= c <==> a >= c * b
  {
    assert a == a / b * b + a % b;
    if a / b >= c {
      MulMonotone(c, a / b, b);
    } else {
      MulMonotone(a / b + 1, c, b);
    }
  }

  /** Bit `k` does not see multiples of `2^j` for `j > k`. */
  lemma BitBelow(n: nat, j: nat, k: nat)
    requires k < j && n >= Pow2(j)
    ensures Bit(n - Pow2(j), k) == Bit(n, k)
  {
    Pow2Split(j, k);
    BitShift(n - Pow2(j), Pow2(k), Pow2(j - k - 1));
  }

  lemma Pow2Split(j: nat, k: nat)
    requires k < j
    ensures Pow2(j) == 2 * Pow2(j - k - 1) * Pow2(k)
  {
    Pow2Add(j - k, k);
    assert j - k + k == j;
    assert Pow2(j - k) == 2 * Pow2(j - k - 1);
  }

  lemma BitShift(m: nat, d: nat, half: nat)
    requires d > 0
    ensures (m + 2 * half * d) / d % 2 == m / d % 2
  {
    DivShift(m, d, 2 * half);
    EvenShift(m / d, half);
  }

  lemma EvenShift(a: nat, b: nat)
    ensures (a + 2 * b) % 2 == a % 2
  {
  }

  lemma DivShift(m: nat, d: nat, c: nat)
    requires d > 0
    ensures (m + c * d) / d == m / d + c
  {
    var q, r := m / d, m % d;
    assert m + c * d == (q + c) * d + r by {
      assert (q + c) * d == q * d + c * d;
    }
    QuotientUnique(m + c * d, d, q + c, r);
  }

  lemma QuotientUnique(a: nat, d: nat, q: nat, r: nat)
    requires d > 0 && r < d && a == q * d + r
    ensures a / d == q && a % d == r
  {
    DivisionBounds(a, d, q);
    DivisionBounds(a, d, q + 1);
    assert (q + 1) * d == q * d + d;
  }

  lemma ModStep(a: nat, d: nat)
    requires 0 < d <= a
    ensures a % d == (a - d) % d
  {
    var q, r := (a - d) / d, (a - d) % d;
    assert (q + 1) * d == q * d + d;
    QuotientUnique(a, d, q + 1, r);
  }

  /** The top bit of an `(k+1)`-bit number is a comparison. */
  lemma BitTop(n: nat, k: nat)
    requires n < 2 * Pow2(k)
    ensures Bit(n, k) <==> n >= Pow2(k)
  {
    TopQuotient(n, Pow2(k));
  }

  lemma TopQuotient(n: nat, d: nat)
    requires d > 0 && n < 2 * d
    ensures n / d % 2 == 1 <==> n >= d
  {
    DivisionBounds(n, d, 1);
    DivisionBounds(n, d, 2);
  }
}

module Kes {
  import opened Prelude
  import opened Bits

  type Seed(==, !new)
  type SecretKey(!new)
  type PublicKey(==, !new)
  type Message(!new)
  type Sig(!new)

  /** The cryptographic primitives the scheme is built from, left uninterpreted. */
  datatype Primitives = Primitives(
    left: Seed -> Seed,
    right: Seed -> Seed,
    keyGen: Seed -> (SecretKey, PublicKey),
    merge: (PublicKey, PublicKey) -> PublicKey,
    sign: (SecretKey, nat, Message) -> Sig,
    check: (PublicKey, nat, Message, Sig) -> bool,
    fingerprint: PublicKey -> nat)

  /** What signing and verification under one key pair promise. */
  ghost predicate SoundSigning(p: Primitives) {
    forall s: Seed, slot: nat, m: Message ::
      p.check(p.keyGen(s).1, slot, m, p.sign(p.keyGen(s).0, slot, m))
  }

  datatype Secret = Secret(
    height: nat,
    updates: nat,
    hotSk: SecretKey,
    hotPk: PublicKey,
    seeds: seq<Seed>,
    keys: seq<(PublicKey, PublicKey)>)

  datatype Signature = Signature(sig: Sig, hotPk: PublicKey, otherPks: seq<PublicKey>)

  // ----- the recursive tree -----

  /** The public key of the subtree of height `h` over `s`. */
  function Root(p: Primitives, h: nat, s: Seed): PublicKey {
    if h == 0 then p.keyGen(s).1
    else p.merge(Root(p, h - 1, p.left(s)), Root(p, h - 1, p.right(s)))
  }

  /** The subtree entered on the way to leaf `n`. */
  function Child(p: Primitives, h: nat, s: Seed, n: nat): Seed
    requires h > 0
  {
    if n < Pow2(h - 1) then p.left(s) else p.right(s)
  }

  /** The number of leaf `n` inside the subtree entered on the way to it. */
  function Offset(h: nat, n: nat): nat
    requires h > 0
  {
    if n < Pow2(h - 1) then n else n - Pow2(h - 1)
  }

  function LeafSeed(p: Primitives, h: nat, s: Seed, n: nat): Seed {
    if h == 0 then s else LeafSeed(p, h - 1, Child(p, h, s, n), Offset(h, n))
  }

  /** The key pairs of the children of every ancestor of leaf `n`, root first. */
  function PathKeys(p: Primitives, h: nat, s: Seed, n: nat): (ks: seq<(PublicKey, PublicKey)>)
    ensures |ks| == h
  {
    if h == 0 then []
    else [(Root(p, h - 1, p.left(s)), Root(p, h - 1, p.right(s)))]
         + PathKeys(p, h - 1, Child(p, h, s, n), Offset(h, n))
  }

  /** The right siblings of the path to leaf `n`, root first. */
  function Retained(p: Primitives, h: nat, s: Seed, n: nat): seq<Seed> {
    if h == 0 then []
    else (if n < Pow2(h - 1) then [p.right(s)] else [])
         + Retained(p, h - 1, Child(p, h, s, n), Offset(h, n))
  }

  /** The secret a signer holds after `n` updates. */
  function SecretAt(p: Primitives, h: nat, s: Seed, n: nat): Secret {
    var (sk, pk) := p.keyGen(LeafSeed(p, h, s, n));
    Secret(h, n, sk, pk, Retained(p, h, s, n), PathKeys(p, h, s, n))
  }

  /** `secret` is what generation over `s` followed by `secret.updates` updates yields. */
  ghost predicate EvolvedFrom(p: Primitives, secret: Secret, s: Seed) {
    secret.updates < Pow2(secret.height) && secret == SecretAt(p, secret.height, s, secret.updates)
  }

  // ----- key generation -----

  function LeftSpine(p: Primitives, s: Seed, d: nat): Seed {
    if d == 0 then s else p.left(LeftSpine(p, s, d - 1))
  }

  lemma {:induction false} LeftSpineShift(p: Primitives, s: Seed, d: nat)
    ensures LeftSpine(p, p.left(s), d) == LeftSpine(p, s, d + 1)
  {
    if d > 0 { LeftSpineShift(p, s, d - 1); }
  }

  /** Before the first update the retained seeds hang off the left spine. */
  lemma {:induction false} RetainedAtZero(p: Primitives, h: nat, s: Seed)
    ensures LeafSeed(p, h, s, 0) == LeftSpine(p, s, h)
    ensures |Retained(p, h, s, 0)| == h
    ensures forall i :: 0 <= i < h ==> Retained(p, h, s, 0)[i] == p.right(LeftSpine(p, s, i))
  {
    if h > 0 {
      RetainedAtZero(p, h - 1, p.left(s));
      LeftSpineShift(p, s, h - 1);
      forall i | 0 < i < h ensures Retained(p, h, s, 0)[i] == p.right(LeftSpine(p, s, i)) {
        LeftSpineShift(p, s, i - 1);
      }
    }
  }

  method LeftBranch(p: Primitives, height: nat, seed: Seed)
    returns (sk: SecretKey, pk: PublicKey, branch: seq<Seed>)
    requires height > 0
    ensures (sk, pk) == p.keyGen(LeafSeed(p, height, seed, 0))
    ensures branch == Retained(p, height, seed, 0)
  {
    branch := [];
    var actual, h := seed, height;
    while true
      invariant 1 <= h <= height
      invariant branch + Retained(p, h, actual, 0) == Retained(p, height, seed, 0)
      invariant LeafSeed(p, h, actual, 0) == LeafSeed(p, height, seed, 0)
      decreases h
    {
      var seed0, seed1 := p.left(actual), p.right(actual);
      assert Retained(p, h, actual, 0) == [seed1] + Retained(p, h - 1, seed0, 0);
      branch := branch + [seed1];
      if h == 1 {
        var pair := p.keyGen(seed0);
        return pair.0, pair.1, branch;
      }
      actual := seed0;
      h := h - 1;
    }
  }

  /** The iterative public-key computation is the recursive Merkle root. */
  method SumCompositionPkGen(p: Primitives, height: nat, seed: Seed) returns (pk: PublicKey)
    ensures pk == Root(p, height, seed)
    decreases height
  {
    if height == 0 {
      return p.keyGen(seed).1;
    }
    var _, pk0, branch := LeftBranch(p, height, seed);
    RetainedAtZero(p, height, seed);
    pk := pk0;
    var high := 0;
    while high < height
      invariant high <= height
      invariant pk == Root(p, high, LeftSpine(p, seed, height - high))
    {
      var s := branch[height - 1 - high];
      var pkRight;
      if high == 0 {
        pkRight := p.keyGen(s).1;
      } else {
        pkRight := SumCompositionPkGen(p, high, s);
      }
      high := high + 1;
      pk := p.merge(pk, pkRight);
    }
  }

  method KesGen(p: Primitives, height: nat, seed: Seed) returns (secret: Secret, pk: PublicKey)
    ensures secret == SecretAt(p, height, seed, 0)
    ensures pk == Root(p, height, seed)
  {
    if height == 0 {
      var pair := p.keyGen(seed);
      return Secret(0, 0, pair.0, pair.1, [], []), pair.1;
    }
    var sk0, pk0, branch := LeftBranch(p, height, seed);
    RetainedAtZero(p, height, seed);
    pk := pk0;
    var pairs := [];
    var high := 0;
    while high < |branch|
      invariant high <= height == |branch|
      invariant pk == Root(p, high, LeftSpine(p, seed, height - high))
      invariant Reverse(pairs) == PathKeys(p, high, LeftSpine(p, seed, height - high), 0)
    {
      var pkRight := SumCompositionPkGen(p, high, branch[|branch| - 1 - high]);
      high := high + 1;
      pairs := pairs + [(pk, pkRight)];
      assert pairs[..|pairs| - 1] + [(pk, pkRight)] == pairs;
      pk := p.merge(pk, pkRight);
    }
    secret := Secret(height, 0, sk0, pk0, branch, Reverse(pairs));
  }

  // ----- key update -----

  function Front<T>(s: seq<T>): seq<T>
    requires s != []
  {
    s[..|s| - 1]
  }

  function Last<T>(s: seq<T>): T
    requires s != []
  {
    s[|s| - 1]
  }

  /** Nothing is retained at the last leaf, and something is before it. */
  lemma {:induction false} RetainedEmpty(p: Primitives, h: nat, s: Seed, n: nat)
    requires n < Pow2(h)
    ensures Retained(p, h, s, n) == [] <==> n == Pow2(h) - 1
  {
    if h > 0 { RetainedEmpty(p, h - 1, Child(p, h, s, n), Offset(h, n)); }
  }

  /** Moving to the next leaf replaces the last retained seed, the root of a subtree whose
      height is the number of trailing ones of `n`, by that subtree's own left branch. */
  ghost predicate Advances(p: Primitives, h: nat, s: Seed, n: nat) {
    var k, seeds, keys := TrailingOnes(n), Retained(p, h, s, n), PathKeys(p, h, s, n);
    && k < h && seeds != []
    && LeafSeed(p, h, s, n + 1) == LeafSeed(p, k, Last(seeds), 0)
    && Retained(p, h, s, n + 1) == Front(seeds) + Retained(p, k, Last(seeds), 0)
    && PathKeys(p, h, s, n + 1) == keys[..h - k] + PathKeys(p, k, Last(seeds), 0)
    && keys[h - 1 - k].1 == Root(p, k, Last(seeds))
  }

  /** The step from the last leaf of the left subtree to the first of the right one. */
  lemma CrossesMiddle(p: Primitives, h: nat, s: Seed, n: nat)
    requires h > 0 && n == Pow2(h - 1) - 1
    ensures Advances(p, h, s, n)
  {
    AllOnes(h - 1);
    RetainedEmpty(p, h - 1, p.left(s), n);
    assert Retained(p, h, s, n) == [p.right(s)];
    assert Retained(p, h, s, n + 1) == Retained(p, h - 1, p.right(s), 0);
    var keys := PathKeys(p, h, s, n);
    assert keys[..1] == [(Root(p, h - 1, p.left(s)), Root(p, h - 1, p.right(s)))];
  }

  lemma RetainedBelow(p: Primitives, h: nat, s: Seed, n: nat)
    requires h > 0 && n + 1 < Pow2(h) && n != Pow2(h - 1) - 1
    ensures
      var child, off, kept := Child(p, h, s, n), Offset(h, n), if n < Pow2(h - 1) then [p.right(s)] else [];
      && Retained(p, h, s, n) == kept + Retained(p, h - 1, child, off)
      && Retained(p, h, s, n + 1) == kept + Retained(p, h - 1, child, off + 1)
  {
    assert Child(p, h, s, n + 1) == Child(p, h, s, n) && Offset(h, n + 1) == Offset(h, n) + 1;
  }

  lemma JoinedEnds<T>(s: seq<T>, t: seq<T>, u: seq<T>)
    requires t != []
    ensures Last(s + t) == Last(t) && s + (Front(t) + u) == Front(s + t) + u
  {
  }

  /** A step inside one subtree keeps the seeds kept outside it. */
  lemma StaysRetained(p: Primitives, h: nat, s: Seed, n: nat)
    requires h > 0 && n + 1 < Pow2(h) && n != Pow2(h - 1) - 1
    requires TrailingOnes(Offset(h, n)) == TrailingOnes(n)
    requires Advances(p, h - 1, Child(p, h, s, n), Offset(h, n))
    ensures
      var k, seeds := TrailingOnes(n), Retained(p, h, s, n);
      && seeds != [] && Last(seeds) == Last(Retained(p, h - 1, Child(p, h, s, n), Offset(h, n)))
      && Retained(p, h, s, n + 1) == Front(seeds) + Retained(p, k, Last(seeds), 0)
  {
    var inner := Retained(p, h - 1, Child(p, h, s, n), Offset(h, n));
    RetainedBelow(p, h, s, n);
    JoinedEnds(if n < Pow2(h - 1) then [p.right(s)] else [], inner, Retained(p, TrailingOnes(n), Last(inner), 0));
  }

  /** A step inside one subtree keeps the key pair of the node above it. */
  lemma StaysKeys(p: Primitives, h: nat, s: Seed, n: nat, k: nat, last: Seed)
    requires h > 0 && n + 1 < Pow2(h) && n != Pow2(h - 1) - 1 && k < h - 1
    requires
      var child, off := Child(p, h, s, n), Offset(h, n);
      var innerKeys := PathKeys(p, h - 1, child, off);
      && PathKeys(p, h - 1, child, off + 1) == innerKeys[..h - 1 - k] + PathKeys(p, k, last, 0)
      && innerKeys[h - 2 - k].1 == Root(p, k, last)
    ensures
      var keys := PathKeys(p, h, s, n);
      && PathKeys(p, h, s, n + 1) == keys[..h - k] + PathKeys(p, k, last, 0)
      && keys[h - 1 - k].1 == Root(p, k, last)
  {
    var child, off := Child(p, h, s, n), Offset(h, n);
    var top := (Root(p, h - 1, p.left(s)), Root(p, h - 1, p.right(s)));
    var innerKeys := PathKeys(p, h - 1, child, off);
    PathKeysBelow(p, h, s, n);
    ConsTake(top, innerKeys, PathKeys(p, k, last, 0), h - 1 - k);
  }

  lemma PathKeysBelow(p: Primitives, h: nat, s: Seed, n: nat)
    requires h > 0 && n + 1 < Pow2(h) && n != Pow2(h - 1) - 1
    ensures
      var child, off := Child(p, h, s, n), Offset(h, n);
      var top := (Root(p, h - 1, p.left(s)), Root(p, h - 1, p.right(s)));
      && PathKeys(p, h, s, n) == [top] + PathKeys(p, h - 1, child, off)
      && PathKeys(p, h, s, n + 1) == [top] + PathKeys(p, h - 1, child, off + 1)
  {
    assert Child(p, h, s, n + 1) == Child(p, h, s, n) && Offset(h, n + 1) == Offset(h, n) + 1;
  }

  lemma ConsTake<T>(x: T, s: seq<T>, t: seq<T>, m: nat)
    requires m <= |s|
    ensures [x] + (s[..m] + t) == ([x] + s)[..m + 1] + t
  {
    assert ([x] + s)[..m + 1] == [x] + s[..m];
  }

  lemma StaysLeaf(p: Primitives, h: nat, s: Seed, n: nat)
    requires h > 0 && n + 1 < Pow2(h) && n != Pow2(h - 1) - 1
    ensures LeafSeed(p, h, s, n + 1) == LeafSeed(p, h - 1, Child(p, h, s, n), Offset(h, n) + 1)
  {
    assert Child(p, h, s, n + 1) == Child(p, h, s, n) && Offset(h, n + 1) == Offset(h, n) + 1;
  }

  /** A step inside one subtree is that subtree's own step. */
  lemma StaysInside(p: Primitives, h: nat, s: Seed, n: nat)
    requires h > 0 && n + 1 < Pow2(h) && n != Pow2(h - 1) - 1
    requires TrailingOnes(Offset(h, n)) == TrailingOnes(n)
    requires Advances(p, h - 1, Child(p, h, s, n), Offset(h, n))
    ensures Advances(p, h, s, n)
  {
    StaysLeaf(p, h, s, n);
    StaysRetained(p, h, s, n);
    StaysKeys(p, h, s, n, TrailingOnes(n), Last(Retained(p, h, s, n)));
  }

  lemma {:induction false} NextLeaf(p: Primitives, h: nat, s: Seed, n: nat)
    requires n + 1 < Pow2(h)
    ensures Advances(p, h, s, n)
  {
    if n == Pow2(h - 1) - 1 {
      CrossesMiddle(p, h, s, n);
    } else {
      var off := Offset(h, n);
      if n >= Pow2(h - 1) { TopBitIrrelevant(h - 1, off); }
      NextLeaf(p, h - 1, Child(p, h, s, n), off);
      StaysInside(p, h, s, n);
    }
  }

  /** The next secret, in terms of the current one and of the subtree entered. */
  lemma NextSecret(p: Primitives, h: nat, s: Seed, n: nat, now: Secret)
    requires n + 1 < Pow2(h) && now == SecretAt(p, h, s, n)
    ensures |now.keys| == h && TrailingOnes(n) < h && now.seeds != []
    ensures
      var k := TrailingOnes(n);
      var entered := SecretAt(p, k, Last(now.seeds), 0);
      && SecretAt(p, h, s, n + 1) == Secret(h, n + 1, entered.hotSk, entered.hotPk,
                                            Front(now.seeds) + entered.seeds, now.keys[..h - k] + entered.keys)
      && now.keys[h - 1 - k].1 == Root(p, k, Last(now.seeds))
      && |entered.keys| == |entered.seeds| == k
      && (k == 0 ==> (entered.hotSk, entered.hotPk) == p.keyGen(Last(now.seeds)))
  {
    NextLeaf(p, h, s, n);
    RetainedAtZero(p, TrailingOnes(n), Last(now.seeds));
  }

  method InsertInVec<T>(source: seq<T>, cloned: seq<T>, lo: nat, hi: nat) returns (r: seq<T>)
    requires lo <= hi <= |cloned|
    ensures r == source + cloned[lo..hi]
  {
    r := source;
    for i := lo to hi
      invariant r == source + cloned[lo..i]
    {
      r := r + [cloned[i]];
    }
  }

  /** The last leaf is the only one that cannot be updated: there the index of the last retained
      seed underflows, reported as `None`.  Both assertions of the source hold on the way. */
  method KesUpdate(p: Primitives, secret: Secret, ghost seed: Seed) returns (r: Option<Secret>)
    requires EvolvedFrom(p, secret, seed)
    ensures r.None? <==> secret.updates == Pow2(secret.height) - 1
    ensures r.Some? ==> r.value == SecretAt(p, secret.height, seed, secret.updates + 1)
  {
    RetainedEmpty(p, secret.height, seed, secret.updates);
    if |secret.seeds| == 0 {
      return None;
    }
    NextSecret(p, secret.height, seed, secret.updates, secret);
    var next := Advance(p, secret);
    r := Some(next);
  }

  lemma EnteredSizes(p: Primitives, k: nat, s: Seed)
    ensures
      var entered := SecretAt(p, k, s, 0);
      && |entered.keys| == |entered.seeds| == k
      && (k == 0 ==> (entered.hotSk, entered.hotPk) == p.keyGen(s))
  {
    RetainedAtZero(p, k, s);
  }

  /** The branch of the update that enters a subtree of height `k` and generates its keys. */
  method EnterSubtree(p: Primitives, secret: Secret, k: nat)
    returns (child: Secret, newSeeds: seq<Seed>, newKeys: seq<(PublicKey, PublicKey)>)
    requires secret.seeds != [] && 0 < k < secret.height == |secret.keys|
    requires secret.keys[secret.height - 1 - k].1 == Root(p, k, Last(secret.seeds))
    ensures child == SecretAt(p, k, Last(secret.seeds), 0)
    ensures newSeeds == Front(secret.seeds) + child.seeds
    ensures newKeys == secret.keys[..secret.height - k] + child.keys
  {
    var pkChild;
    child, pkChild := KesGen(p, k, secret.seeds[|secret.seeds| - 1]);
    EnteredSizes(p, k, Last(secret.seeds));
    newSeeds, newKeys := [], [];
    if |secret.keys| > 1 {
      assert secret.keys[secret.height - (k + 1)].1 == pkChild;
      newSeeds := InsertInVec(newSeeds, secret.seeds, 0, |secret.seeds| - 1);
    }
    newKeys := InsertInVec(newKeys, secret.keys, 0, |secret.keys| - |child.keys|);
    newKeys := InsertInVec(newKeys, child.keys, 0, |child.keys|);
    newSeeds := InsertInVec(newSeeds, child.seeds, 0, |child.keys|);
    assert |newKeys| == secret.height;
  }

  /** The body of the update once the index of the last retained seed is known to exist. */
  method Advance(p: Primitives, secret: Secret) returns (r: Secret)
    requires secret.seeds != [] && |secret.keys| == secret.height
    requires TrailingOnes(secret.updates) < secret.height
    requires var k := TrailingOnes(secret.updates);
             secret.keys[secret.height - 1 - k].1 == Root(p, k, Last(secret.seeds))
    ensures
      var k := TrailingOnes(secret.updates);
      var entered := SecretAt(p, k, Last(secret.seeds), 0);
      r == Secret(secret.height, secret.updates + 1, entered.hotSk, entered.hotPk,
                  Front(secret.seeds) + entered.seeds, secret.keys[..secret.height - k] + entered.keys)
  {
    var lastSeedInd := |secret.seeds| - 1;
    var newKeys: seq<(PublicKey, PublicKey)> := [];
    var newSeeds: seq<Seed> := [];
    var sk, pk;
    var ancNum := CountOnes(Xor(secret.updates, secret.updates + 1));
    IncrementFlips(secret.updates);
    if ancNum == 1 {
      EnteredSizes(p, 0, Last(secret.seeds));
      if |secret.seeds| >= 1 {
        newSeeds := InsertInVec(newSeeds, secret.seeds, 0, lastSeedInd);
        newKeys := InsertInVec(newKeys, secret.keys, 0, secret.height);
      }
      var pair := p.keyGen(secret.seeds[lastSeedInd]);
      sk, pk := pair.0, pair.1;
    } else {
      var child;
      child, newSeeds, newKeys := EnterSubtree(p, secret, ancNum - 1);
      sk, pk := child.hotSk, child.hotPk;
    }
    r := Secret(secret.height, secret.updates + 1, sk, pk, newSeeds, newKeys);
  }

  // ----- signing and verification -----

  /** The side greedy subtraction picks at every depth below a node of height `h`. */
  function GreedySides(h: nat, slot: nat): (r: seq<bool>)
    ensures |r| == h
  {
    if h == 0 then []
    else if slot >= Pow2(h - 1) then [true] + GreedySides(h - 1, slot - Pow2(h - 1))
    else [false] + GreedySides(h - 1, slot)
  }

  function PickSides(keys: seq<(PublicKey, PublicKey)>, sides: seq<bool>): (r: seq<PublicKey>)
    requires |keys| == |sides|
    ensures |r| == |keys|
  {
    seq(|keys|, i requires 0 <= i < |keys| => if sides[i] then keys[i].0 else keys[i].1)
  }

  method KesSign(p: Primitives, m: Message, secret: Secret, slot: nat) returns (sig: Signature)
    requires |secret.keys| == secret.height
    ensures sig == Signature(p.sign(secret.hotSk, slot, m), secret.hotPk,
                             PickSides(secret.keys, GreedySides(secret.height, slot)))
  {
    var pks := [];
    var h := slot;
    for i := 0 to |secret.keys|
      invariant |pks| == i
      invariant GreedySides(secret.height, slot)[i..] == GreedySides(secret.height - i, h)
      invariant pks == PickSides(secret.keys, GreedySides(secret.height, slot))[..i]
    {
      var leafHigh := secret.height - i;
      var actualHigh := Pow2(leafHigh - 1);
      ghost var sides := GreedySides(secret.height, slot);
      assert sides[i..][0] == sides[i] && sides[i..][1..] == sides[i + 1..];
      if h >= actualHigh {
        h := h - actualHigh;
        pks := pks + [secret.keys[i].0];
      } else {
        pks := pks + [secret.keys[i].1];
      }
    }
    sig := Signature(p.sign(secret.hotSk, slot, m), secret.hotPk, pks);
  }

  /** The sides the verifier reads off the bits of the slot. */
  function BitSides(h: nat, slot: nat): (r: seq<bool>)
    ensures |r| == h
  {
    seq(h, i requires 0 <= i < h => Bit(slot, h - 1 - i))
  }

  function Rebuild(p: Primitives, pk: PublicKey, others: seq<PublicKey>, sides: seq<bool>): PublicKey
    requires |others| == |sides|
  {
    if others == [] then pk
    else
      var inner := Rebuild(p, pk, others[1..], sides[1..]);
      if sides[0] then p.merge(others[0], inner) else p.merge(inner, others[0])
  }

  method SchemePkFromSignature(p: Primitives, sig: Signature, slot: nat) returns (pk: PublicKey)
    ensures pk == Rebuild(p, sig.hotPk, sig.otherPks, BitSides(|sig.otherPks|, slot))
  {
    pk := sig.hotPk;
    var n := |sig.otherPks|;
    for i := n downto 0
      invariant pk == Rebuild(p, sig.hotPk, sig.otherPks[i..], BitSides(n, slot)[i..])
    {
      var other := sig.otherPks[i];
      assert sig.otherPks[i..][1..] == sig.otherPks[i + 1..];
      assert BitSides(n, slot)[i..][1..] == BitSides(n, slot)[i + 1..];
      if Bit(slot, n - i - 1) {
        pk := p.merge(other, pk);
      } else {
        pk := p.merge(pk, other);
      }
    }
    assert sig.otherPks[0..] == sig.otherPks && BitSides(n, slot)[0..] == BitSides(n, slot);
  }

  method KesVerify(p: Primitives, sig: Signature, m: Message, pk: PublicKey, slot: nat) returns (ok: bool)
    ensures ok <==> p.check(sig.hotPk, slot, m, sig.sig)
                    && p.fingerprint(Rebuild(p, sig.hotPk, sig.otherPks, BitSides(|sig.otherPks|, slot)))
                       == p.fingerprint(pk)
  {
    var schemePk := SchemePkFromSignature(p, sig, slot);
    ok := p.check(sig.hotPk, slot, m, sig.sig) && p.fingerprint(schemePk) == p.fingerprint(pk);
  }

  /** Greedy subtraction and the bit tests take the same side at every level. */
  lemma {:induction false} GreedyIsBits(h: nat, slot: nat)
    requires slot < Pow2(h)
    ensures GreedySides(h, slot) == BitSides(h, slot)
  {
    if h > 0 {
      var rest := Offset(h, slot);
      GreedyIsBits(h - 1, rest);
      BitTop(slot, h - 1);
      forall i | 0 < i < h ensures GreedySides(h, slot)[i] == BitSides(h, slot)[i] {
        if slot >= Pow2(h - 1) { BitBelow(slot, h - 1, h - 1 - i); }
        assert GreedySides(h, slot)[i] == GreedySides(h - 1, rest)[i - 1];
        assert BitSides(h - 1, rest)[i - 1] == Bit(rest, h - 1 - i);
      }
    }
  }

  /** Past the last leaf greedy subtraction goes right everywhere. */
  lemma {:induction false} GreedyPastEnd(h: nat, slot: nat)
    requires slot >= Pow2(h) - 1
    ensures GreedySides(h, slot) == seq(h, i => true)
  {
    if h > 0 { GreedyPastEnd(h - 1, slot - Pow2(h - 1)); }
  }

  lemma BitSidesPeriodic(h: nat, slot: nat)
    requires slot >= Pow2(h)
    ensures BitSides(h, slot) == BitSides(h, slot - Pow2(h))
  {
    forall i | 0 <= i < h ensures BitSides(h, slot)[i] == BitSides(h, slot - Pow2(h))[i] {
      BitBelow(slot, h, h - 1 - i);
    }
  }

  lemma {:induction false} BitSidesModulo(h: nat, slot: nat)
    ensures BitSides(h, slot) == BitSides(h, slot % Pow2(h))
    decreases slot
  {
    var q := Pow2(h);
    if slot >= q {
      BitSidesPeriodic(h, slot);
      BitSidesModulo(h, slot - q);
      ModStep(slot, q);
    } else {
      QuotientUnique(slot, q, 0, slot);
    }
  }

  lemma {:induction false} GreedyInjective(h: nat, a: nat, b: nat)
    requires a < Pow2(h) && b < Pow2(h) && GreedySides(h, a) == GreedySides(h, b)
    ensures a == b
  {
    if h > 0 {
      assert GreedySides(h, a)[0] == GreedySides(h, b)[0];
      assert GreedySides(h, a)[1..] == GreedySides(h - 1, Offset(h, a));
      assert GreedySides(h, b)[1..] == GreedySides(h - 1, Offset(h, b));
      GreedyInjective(h - 1, Offset(h, a), Offset(h, b));
    }
  }

  /** Signer and verifier agree on every level exactly for slots of the tree and for those
      whose low `h` bits are all set. */
  lemma SidesAgree(h: nat, slot: nat)
    ensures GreedySides(h, slot) == BitSides(h, slot)
            <==> slot < Pow2(h) || slot % Pow2(h) == Pow2(h) - 1
  {
    if slot < Pow2(h) {
      GreedyIsBits(h, slot);
    } else {
      var low := slot % Pow2(h);
      GreedyPastEnd(h, slot);
      GreedyPastEnd(h, Pow2(h) - 1);
      BitSidesModulo(h, slot);
      GreedyIsBits(h, low);
      if GreedySides(h, slot) == BitSides(h, slot) {
        GreedyInjective(h, low, Pow2(h) - 1);
      }
    }
  }

  lemma RebuildCons(p: Primitives, pk: PublicKey, top: (PublicKey, PublicKey), keys: seq<(PublicKey, PublicKey)>, side: bool, sides: seq<bool>)
    requires |keys| == |sides|
    ensures
      var inner := Rebuild(p, pk, PickSides(keys, sides), sides);
      Rebuild(p, pk, PickSides([top] + keys, [side] + sides), [side] + sides) ==
      if side then p.merge(top.0, inner) else p.merge(inner, top.1)
  {
    assert PickSides([top] + keys, [side] + sides)[1..] == PickSides(keys, sides);
    assert ([side] + sides)[1..] == sides;
  }

  lemma {:induction false} RebuildPath(p: Primitives, h: nat, s: Seed, n: nat)
    requires n < Pow2(h)
    ensures Rebuild(p, p.keyGen(LeafSeed(p, h, s, n)).1,
                    PickSides(PathKeys(p, h, s, n), GreedySides(h, n)), GreedySides(h, n)) == Root(p, h, s)
  {
    if h > 0 {
      var child, off, pk := Child(p, h, s, n), Offset(h, n), p.keyGen(LeafSeed(p, h, s, n)).1;
      var top := (Root(p, h - 1, p.left(s)), Root(p, h - 1, p.right(s)));
      RebuildPath(p, h - 1, child, off);
      RebuildCons(p, pk, top, PathKeys(p, h - 1, child, off), n >= Pow2(h - 1), GreedySides(h - 1, off));
    }
  }

  /** Whatever the height, the seed and the slot, a signature made at its own slot rebuilds
      exactly the public key that generation returned. */
  method SignThenRebuild(p: Primitives, height: nat, seed: Seed, slot: nat, m: Message)
    returns (ok: bool, pk: PublicKey, rebuilt: PublicKey)
    requires slot < Pow2(height)
    ensures pk == rebuilt == Root(p, height, seed)
    ensures SoundSigning(p) ==> ok
  {
    var secret;
    secret, pk := KesGen(p, height, seed);
    for n := 0 to slot
      invariant secret == SecretAt(p, height, seed, n)
    {
      var next := KesUpdate(p, secret, seed);
      secret := next.value;
    }
    var sig := KesSign(p, m, secret, slot);
    GreedyIsBits(height, slot);
    RebuildPath(p, height, seed, slot);
    rebuilt := SchemePkFromSignature(p, sig, slot);
    ok := KesVerify(p, sig, m, pk, slot);
  }

  // ----- what the retained seeds can still derive -----

  /** A subtree of the whole tree: the leaves `first .. first + 2^height`. */
  datatype Subtree = Subtree(first: nat, height: nat) {
    function End(): nat { first + Pow2(height) }

    predicate Covers(leaf: nat) { first <= leaf < End() }
  }

  /** Where the retained seeds sit in the tree. */
  function RetainedTrees(h: nat, base: nat, n: nat): seq<Subtree> {
    if h == 0 then []
    else if n < Pow2(h - 1) then [Subtree(base + Pow2(h - 1), h - 1)] + RetainedTrees(h - 1, base, n)
    else RetainedTrees(h - 1, base + Pow2(h - 1), n - Pow2(h - 1))
  }

  predicate Covered(ts: seq<Subtree>, leaf: nat) {
    exists i :: 0 <= i < |ts| && ts[i].Covers(leaf)
  }

  /** Read backwards, each subtree begins where the one before it ends. */
  predicate Chained(ts: seq<Subtree>) {
    forall k :: 0 < k < |ts| ==> ts[k].End() == ts[k - 1].first
  }

  lemma ChainedCons(t: Subtree, rest: seq<Subtree>)
    requires Chained(rest) && (rest != [] ==> rest[0].End() == t.first)
    ensures Chained([t] + rest)
  {
    var ts := [t] + rest;
    forall k | 0 < k < |ts| ensures ts[k].End() == ts[k - 1].first {
      assert ts[k] == rest[k - 1];
      if k > 1 {
        assert ts[k - 1] == rest[k - 2] && rest[k - 1].End() == rest[(k - 1) - 1].first;
      }
    }
  }

  lemma ChainedRest(ts: seq<Subtree>)
    requires Chained(ts) && ts != []
    ensures Chained(ts[1..])
  {
    var rest := ts[1..];
    forall k | 0 < k < |rest| ensures rest[k].End() == rest[k - 1].first {
      assert ts[k + 1].End() == ts[(k + 1) - 1].first;
    }
  }

  lemma {:induction false} RetainedEnds(h: nat, base: nat, n: nat)
    requires n < Pow2(h)
    ensures
      var ts := RetainedTrees(h, base, n);
      && (ts == [] <==> n == Pow2(h) - 1)
      && (ts != [] ==> ts[0].End() == base + Pow2(h) && Last(ts).first == base + n + 1)
  {
    if h > 0 {
      var half := Pow2(h - 1);
      assert Pow2(h) == half + half;
      if n < half {
        RetainedEnds(h - 1, base, n);
        var first, rest := Subtree(base + half, h - 1), RetainedTrees(h - 1, base, n);
        assert RetainedTrees(h, base, n) == [first] + rest;
        assert first.End() == base + half + half;
        if rest != [] {
          assert Last([first] + rest) == Last(rest);
        } else {
          assert Last([first]) == first;
        }
      } else {
        RetainedEnds(h - 1, base + half, n - half);
        assert RetainedTrees(h, base, n) == RetainedTrees(h - 1, base + half, n - half);
      }
    }
  }

  lemma {:induction false} RetainedChained(h: nat, base: nat, n: nat)
    requires n < Pow2(h)
    ensures Chained(RetainedTrees(h, base, n))
  {
    if h > 0 {
      var half := Pow2(h - 1);
      if n < half {
        RetainedChained(h - 1, base, n);
        RetainedEnds(h - 1, base, n);
        ChainedCons(Subtree(base + half, h - 1), RetainedTrees(h - 1, base, n));
      } else {
        RetainedChained(h - 1, base + half, n - half);
      }
    }
  }

  /** The retained subtrees tile the future: read backwards they start right after the current
      leaf, each begins where the next one ends, and the first one ends the tree. */
  lemma {:induction false} RetainedTile(h: nat, base: nat, n: nat)
    requires n < Pow2(h)
    ensures
      var ts := RetainedTrees(h, base, n);
      && (ts == [] <==> n == Pow2(h) - 1)
      && (ts != [] ==> ts[0].End() == base + Pow2(h) && Last(ts).first == base + n + 1)
      && Chained(ts)
  {
    RetainedEnds(h, base, n);
    RetainedChained(h, base, n);
  }

  lemma {:induction false} TilesOrdered(ts: seq<Subtree>, i: nat, j: nat)
    requires i < j < |ts| && Chained(ts)
    ensures ts[j].End() <= ts[i].first
    decreases j
  {
    assert ts[j].End() == ts[j - 1].first;
    if i < j - 1 { TilesOrdered(ts, i, j - 1); }
  }

  lemma {:induction false} TilesCover(ts: seq<Subtree>, leaf: nat)
    requires ts != [] && Last(ts).first <= leaf < ts[0].End() && Chained(ts)
    ensures Covered(ts, leaf)
    decreases |ts|
  {
    if leaf < ts[0].first {
      var rest := ts[1..];
      assert ts[1].End() == ts[1 - 1].first;
      ChainedRest(ts);
      TilesCover(rest, leaf);
      var i :| 0 <= i < |rest| && rest[i].Covers(leaf);
      assert ts[i + 1] == rest[i];
    }
  }

  /** Each retained seed derives exactly the leaf seeds of its subtree. */
  lemma {:induction false} RetainedDerives(p: Primitives, h: nat, s: Seed, base: nat, n: nat, i: nat, leaf: nat)
    requires n < Pow2(h) && |Retained(p, h, s, n)| == |RetainedTrees(h, base, n)|
    requires i < |RetainedTrees(h, base, n)|
    requires var t := RetainedTrees(h, base, n)[i]; t.Covers(leaf)
    ensures base <= leaf < base + Pow2(h)
    ensures
      var t := RetainedTrees(h, base, n)[i];
      LeafSeed(p, t.height, Retained(p, h, s, n)[i], leaf - t.first) == LeafSeed(p, h, s, leaf - base)
  {
    var half := Pow2(h - 1);
    if n < half {
      assert Retained(p, h, s, n) == [p.right(s)] + Retained(p, h - 1, p.left(s), n);
      if i > 0 {
        RetainedDerives(p, h - 1, p.left(s), base, n, i - 1, leaf);
        assert LeafSeed(p, h, s, leaf - base) == LeafSeed(p, h - 1, p.left(s), leaf - base);
      } else {
        assert LeafSeed(p, h, s, leaf - base) == LeafSeed(p, h - 1, p.right(s), leaf - base - half);
      }
    } else {
      assert Retained(p, h, s, n) == Retained(p, h - 1, p.right(s), n - half);
      RetainedDerives(p, h - 1, p.right(s), base + half, n - half, i, leaf);
      assert LeafSeed(p, h, s, leaf - base) == LeafSeed(p, h - 1, p.right(s), leaf - base - half);
    }
  }

  lemma {:induction false} RetainedCount(p: Primitives, h: nat, s: Seed, base: nat, n: nat)
    ensures |Retained(p, h, s, n)| == |RetainedTrees(h, base, n)|
  {
    if h > 0 {
      RetainedCount(p, h - 1, Child(p, h, s, n), if n < Pow2(h - 1) then base else base + Pow2(h - 1), Offset(h, n));
    }
  }

  predicate PairwiseDisjoint(ts: seq<Subtree>) {
    forall i, j :: 0 <= i < j < |ts| ==> ts[j].End() <= ts[i].first
  }

  /** The leaves under `ts` are exactly `lo .. hi`. */
  ghost predicate CoverExactly(ts: seq<Subtree>, lo: nat, hi: nat) {
    forall leaf: nat :: lo <= leaf < hi <==> Covered(ts, leaf)
  }

  /** The leaf seeds under each tree of `ts` follow from the seed at the same index. */
  ghost predicate Derives(p: Primitives, h: nat, s: Seed, seeds: seq<Seed>, ts: seq<Subtree>) {
    && |seeds| == |ts|
    && forall i, leaf: nat :: 0 <= i < |ts| && ts[i].Covers(leaf) ==>
         LeafSeed(p, ts[i].height, seeds[i], leaf - ts[i].first) == LeafSeed(p, h, s, leaf)
  }

  lemma TilesExact(h: nat, n: nat)
    requires n < Pow2(h)
    ensures PairwiseDisjoint(RetainedTrees(h, 0, n))
    ensures CoverExactly(RetainedTrees(h, 0, n), n + 1, Pow2(h))
  {
    var ts := RetainedTrees(h, 0, n);
    RetainedTile(h, 0, n);
    forall i, j | 0 <= i < j < |ts| ensures ts[j].End() <= ts[i].first {
      TilesOrdered(ts, i, j);
    }
    forall leaf: nat ensures n + 1 <= leaf < Pow2(h) <==> Covered(ts, leaf) {
      if Covered(ts, leaf) {
        var i :| 0 <= i < |ts| && ts[i].Covers(leaf);
        assert i > 0 ==> ts[i].End() <= ts[0].first;
        assert i < |ts| - 1 ==> ts[|ts| - 1].End() <= ts[i].first;
      } else if n + 1 <= leaf < Pow2(h) {
        TilesCover(ts, leaf);
      }
    }
  }

  /** After `n` updates the retained seeds are the roots of pairwise disjoint subtrees whose
      leaves are exactly `n + 1 .. 2^h`: every future leaf seed can be derived from one of
      them, and no past or current leaf lies under any. */
  lemma ForwardSecurity(p: Primitives, h: nat, s: Seed, n: nat)
    requires n < Pow2(h)
    ensures
      var seeds, ts := SecretAt(p, h, s, n).seeds, RetainedTrees(h, 0, n);
      && PairwiseDisjoint(ts)
      && CoverExactly(ts, n + 1, Pow2(h))
      && Derives(p, h, s, seeds, ts)
      && (seeds == [] <==> n == Pow2(h) - 1)
  {
    var seeds, ts := SecretAt(p, h, s, n).seeds, RetainedTrees(h, 0, n);
    RetainedCount(p, h, s, 0, n);
    RetainedEmpty(p, h, s, n);
    TilesExact(h, n);
    forall i, leaf: nat | 0 <= i < |ts| && ts[i].Covers(leaf)
      ensures LeafSeed(p, ts[i].height, seeds[i], leaf - ts[i].first) == LeafSeed(p, h, s, leaf)
    {
      RetainedDerives(p, h, s, 0, n, i, leaf);
    }
  }
}
