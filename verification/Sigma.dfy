/** Aggregate Schnorr certificates with an exclusion set, over any group the scalars act on. */
module Curves {
  type Point(==, !new)
  type Scalar(==, !new)

  /** Points and scalars with their operations, written additively. */
  datatype Curve = Curve(
    zero: Point,
    g: Point,
    add: (Point, Point) -> Point,
    neg: Point -> Point,
    mul: (Point, Scalar) -> Point,
    szero: Scalar,
    sadd: (Scalar, Scalar) -> Scalar,
    smul: (Scalar, Scalar) -> Scalar)

  predicate Associates(v: Curve, a: Point, b: Point, c: Point) {
    v.add(v.add(a, b), c) == v.add(a, v.add(b, c))
  }

  predicate Commutes(v: Curve, a: Point, b: Point) {
    v.add(a, b) == v.add(b, a)
  }

  predicate Cancels(v: Curve, a: Point) {
    v.add(a, v.zero) == a && v.add(a, v.neg(a)) == v.zero
  }

  predicate DistributesOverPoints(v: Curve, a: Point, b: Point, s: Scalar) {
    v.mul(v.add(a, b), s) == v.add(v.mul(a, s), v.mul(b, s))
  }

  predicate DistributesOverScalars(v: Curve, a: Point, s: Scalar, t: Scalar) {
    v.mul(a, v.sadd(s, t)) == v.add(v.mul(a, s), v.mul(a, t)) && v.mul(v.mul(a, s), t) == v.mul(a, v.smul(s, t))
  }

  predicate Vanishes(v: Curve, a: Point, s: Scalar) {
    v.mul(v.zero, s) == v.zero && v.mul(a, v.szero) == v.zero
  }

  predicate ScalarsCommute(v: Curve, s: Scalar, t: Scalar) {
    v.smul(s, t) == v.smul(t, s)
  }

  predicate ScalarsAssociate(v: Curve, s: Scalar, t: Scalar, u: Scalar) {
    v.smul(v.smul(s, t), u) == v.smul(s, v.smul(t, u))
  }

  /** Points form a commutative group on which the scalars act linearly. */
  ghost predicate Laws(v: Curve) {
    && (forall a, b, c :: Associates(v, a, b, c)) && (forall a, b :: Commutes(v, a, b)) && (forall a :: Cancels(v, a))
    && (forall a, b, s :: DistributesOverPoints(v, a, b, s)) && (forall a, s, t :: DistributesOverScalars(v, a, s, t))
    && (forall a, s :: Vanishes(v, a, s))
    && (forall s, t :: ScalarsCommute(v, s, t)) && (forall s, t, u :: ScalarsAssociate(v, s, t, u))
  }

  lemma AddAssoc(v: Curve, a: Point, b: Point, c: Point)
    requires Laws(v)
    ensures v.add(v.add(a, b), c) == v.add(a, v.add(b, c))
  {
    assert Associates(v, a, b, c);
  }

  lemma AddComm(v: Curve, a: Point, b: Point)
    requires Laws(v)
    ensures v.add(a, b) == v.add(b, a)
  {
    assert Commutes(v, a, b);
  }

  lemma AddZero(v: Curve, a: Point)
    requires Laws(v)
    ensures v.add(a, v.zero) == a && v.add(v.zero, a) == a && v.add(a, v.neg(a)) == v.zero
  {
    assert Cancels(v, a) && Commutes(v, a, v.zero);
  }

  lemma MulAdd(v: Curve, a: Point, b: Point, s: Scalar)
    requires Laws(v)
    ensures v.mul(v.add(a, b), s) == v.add(v.mul(a, s), v.mul(b, s))
  {
    assert DistributesOverPoints(v, a, b, s);
  }

  lemma MulScalars(v: Curve, a: Point, s: Scalar, t: Scalar)
    requires Laws(v)
    ensures v.mul(a, v.sadd(s, t)) == v.add(v.mul(a, s), v.mul(a, t))
    ensures v.mul(v.mul(a, s), t) == v.mul(a, v.smul(s, t))
  {
    assert DistributesOverScalars(v, a, s, t);
  }

  lemma MulZero(v: Curve, a: Point, s: Scalar)
    requires Laws(v)
    ensures v.mul(v.zero, s) == v.zero && v.mul(a, v.szero) == v.zero
  {
    assert Vanishes(v, a, s);
  }

  lemma SMulReorder(v: Curve, c: Scalar, a: Scalar, x: Scalar)
    requires Laws(v)
    ensures v.smul(v.smul(c, a), x) == v.smul(v.smul(x, a), c)
  {
    assert ScalarsCommute(v, v.smul(c, a), x) && ScalarsCommute(v, c, a) && ScalarsAssociate(v, x, a, c);
  }

  /** `(a + b) + (c + d) == (a + c) + (b + d)`. */
  lemma Exchange(v: Curve, a: Point, b: Point, c: Point, d: Point)
    requires Laws(v)
    ensures v.add(v.add(a, b), v.add(c, d)) == v.add(v.add(a, c), v.add(b, d))
  {
    AddAssoc(v, a, b, v.add(c, d));
    AddAssoc(v, b, c, d);
    AddComm(v, b, c);
    AddAssoc(v, c, b, d);
    AddAssoc(v, a, c, v.add(b, d));
  }

  /** `(a + b) - b == a`. */
  lemma Cancel(v: Curve, a: Point, b: Point)
    requires Laws(v)
    ensures v.add(v.add(a, b), v.neg(b)) == a
  {
    AddAssoc(v, a, b, v.neg(b));
    AddZero(v, b);
    AddZero(v, a);
  }

  /** Adding the same point on both sides loses nothing. */
  lemma CancelBoth(v: Curve, a: Point, b: Point, c: Point)
    requires Laws(v)
    ensures v.add(a, c) == v.add(b, c) <==> a == b
  {
    Cancel(v, a, c);
    Cancel(v, b, c);
  }

  // ----- sums -----

  /** The iterator sum of a list. */
  function SumSeq(v: Curve, s: seq<Point>): Point {
    if s == [] then v.zero else v.add(SumSeq(v, s[..|s| - 1]), s[|s| - 1])
  }

  function SumScalars(v: Curve, s: seq<Scalar>): Scalar {
    if s == [] then v.szero else v.sadd(SumScalars(v, s[..|s| - 1]), s[|s| - 1])
  }

  /** The sum of `f` over the indices below `n`. */
  function Sum(v: Curve, n: nat, f: nat -> Point): Point {
    if n == 0 then v.zero else v.add(Sum(v, n - 1, f), f(n - 1))
  }

  lemma {:induction false} SumSame(v: Curve, n: nat, f: nat -> Point, h: nat -> Point)
    requires forall i: nat :: i < n ==> f(i) == h(i)
    ensures Sum(v, n, f) == Sum(v, n, h)
  {
    if n > 0 { SumSame(v, n - 1, f, h); }
  }

  lemma {:induction false} SumAdd(v: Curve, n: nat, f: nat -> Point, h: nat -> Point, both: nat -> Point)
    requires Laws(v) && forall i: nat :: i < n ==> both(i) == v.add(f(i), h(i))
    ensures Sum(v, n, both) == v.add(Sum(v, n, f), Sum(v, n, h))
  {
    if n == 0 {
      AddZero(v, v.zero);
    } else {
      SumAdd(v, n - 1, f, h, both);
      Exchange(v, Sum(v, n - 1, f), Sum(v, n - 1, h), f(n - 1), h(n - 1));
    }
  }

  lemma {:induction false} SumMul(v: Curve, n: nat, f: nat -> Point, s: Scalar, scaled: nat -> Point)
    requires Laws(v) && forall i: nat :: i < n ==> scaled(i) == v.mul(f(i), s)
    ensures Sum(v, n, scaled) == v.mul(Sum(v, n, f), s)
  {
    if n == 0 {
      MulZero(v, v.zero, s);
    } else {
      SumMul(v, n - 1, f, s, scaled);
      MulAdd(v, Sum(v, n - 1, f), f(n - 1), s);
    }
  }

  /** `f` on the indices of `keys`, nothing elsewhere. */
  function Only(v: Curve, keys: set<nat>, f: nat -> Point): nat -> Point {
    (i: nat) => if i in keys then f(i) else v.zero
  }

  lemma {:induction false} SumInsert(v: Curve, n: nat, keys: set<nat>, f: nat -> Point, x: nat)
    requires Laws(v) && x < n && x !in keys
    ensures Sum(v, n, Only(v, keys + {x}, f)) == v.add(Sum(v, n, Only(v, keys, f)), f(x))
  {
    var with, without := Only(v, keys + {x}, f), Only(v, keys, f);
    if x == n - 1 {
      SumSame(v, n - 1, with, without);
      AddZero(v, Sum(v, n - 1, without));
    } else {
      SumInsert(v, n - 1, keys, f, x);
      var s, y := Sum(v, n - 1, without), without(n - 1);
      AddAssoc(v, s, f(x), y);
      AddComm(v, f(x), y);
      AddAssoc(v, s, y, f(x));
    }
  }

  /** `ixs` lists `keys`, each once, in any order. */
  ghost predicate Lists(ixs: seq<nat>, keys: set<nat>) {
    && (forall i, j :: 0 <= i < j < |ixs| ==> ixs[i] != ixs[j])
    && (forall x :: x in keys <==> x in ixs)
  }

  lemma {:induction false} SumListed(v: Curve, n: nat, ixs: seq<nat>, keys: set<nat>, f: nat -> Point, points: seq<Point>)
    requires Laws(v) && Lists(ixs, keys) && forall x :: x in keys ==> x < n
    requires |points| == |ixs| && forall t :: 0 <= t < |ixs| ==> points[t] == f(ixs[t])
    ensures SumSeq(v, points) == Sum(v, n, Only(v, keys, f))
    decreases |ixs|
  {
    if ixs == [] {
      assert keys == {};
      SumNothing(v, n, Only(v, keys, f));
    } else {
      var front, x := ixs[..|ixs| - 1], ixs[|ixs| - 1];
      assert ixs == front + [x];
      assert x in ixs && x !in front;
      SumListed(v, n, front, keys - {x}, f, points[..|ixs| - 1]);
      SumInsert(v, n, keys - {x}, f, x);
      assert keys - {x} + {x} == keys;
    }
  }

  lemma {:induction false} SumNothing(v: Curve, n: nat, f: nat -> Point)
    requires Laws(v) && forall i: nat :: i < n ==> f(i) == v.zero
    ensures Sum(v, n, f) == v.zero
  {
    if n > 0 {
      SumNothing(v, n - 1, f);
      AddZero(v, v.zero);
    }
  }

  lemma {:induction false} SumScalarsActs(v: Curve, s: seq<Scalar>, points: seq<Point>)
    requires Laws(v) && |points| == |s| && forall t :: 0 <= t < |s| ==> points[t] == v.mul(v.g, s[t])
    ensures v.mul(v.g, SumScalars(v, s)) == SumSeq(v, points)
  {
    if s == [] {
      MulZero(v, v.g, v.szero);
    } else {
      SumScalarsActs(v, s[..|s| - 1], points[..|s| - 1]);
      MulScalars(v, v.g, SumScalars(v, s[..|s| - 1]), s[|s| - 1]);
    }
  }

  /** A sum splits over two disjoint sets of indices. */
  lemma SumSplit(v: Curve, n: nat, a: set<nat>, b: set<nat>, f: nat -> Point)
    requires Laws(v) && a !! b
    ensures Sum(v, n, Only(v, a + b, f)) == v.add(Sum(v, n, Only(v, a, f)), Sum(v, n, Only(v, b, f)))
  {
    var fa, fb, both := Only(v, a, f), Only(v, b, f), Only(v, a + b, f);
    forall i: nat | i < n ensures both(i) == v.add(fa(i), fb(i)) {
      AddZero(v, f(i));
      AddZero(v, v.zero);
    }
    SumAdd(v, n, fa, fb, both);
  }
}

module Sigma {
  import opened Prelude
  import opened Contributions
  import opened Curves
  import HandelSpec

  type Sig(!new)
  type Threshold = HandelSpec.Threshold

  type Commitments = Contribution<(Point, Sig)>
  type Responses = Contribution<Scalar>
  type Exclusions = seq<(nat, Option<(Point, Sig)>)>

  /** The curve, and the hashes and signature checks left uninterpreted; the message is fixed. */
  datatype Env = Env(
    v: Curve,
    individualInput: (seq<Point>, Point) -> Scalar,
    challenge: (Point, Point) -> Scalar,
    proofOk: (Point, Sig) -> bool)

  // ----- crypto.rs -----

  function IndividualInputs(e: Env, committee: seq<Point>): (r: seq<Scalar>)
    ensures |r| == |committee|
  {
    seq(|committee|, i requires 0 <= i < |committee| => e.individualInput(committee, committee[i]))
  }

  /** The weighted key of member `i`; nothing past the committee. */
  function Weighted(e: Env, committee: seq<Point>): nat -> Point {
    (i: nat) => if i < |committee| then e.v.mul(committee[i], IndividualInputs(e, committee)[i]) else e.v.zero
  }

  function AggregatePk(e: Env, committee: seq<Point>): Point {
    SumSeq(e.v, seq(|committee|, i requires 0 <= i < |committee| => e.v.mul(committee[i], IndividualInputs(e, committee)[i])))
  }

  function Response(e: Env, y: Scalar, x: Scalar, c: Scalar, a: Scalar): Scalar {
    e.v.sadd(y, e.v.smul(e.v.smul(c, a), x))
  }

  predicate VerifyResponse(e: Env, z: Scalar, a: Scalar, c: Scalar, commitment: Point, pk: Point) {
    e.v.mul(e.v.g, z) == e.v.add(commitment, e.v.mul(e.v.mul(pk, a), c))
  }

  /** A response computed from the two secrets passes its check. */
  lemma HonestResponse(e: Env, y: Scalar, x: Scalar, c: Scalar, a: Scalar)
    requires Laws(e.v)
    ensures VerifyResponse(e, Response(e, y, x, c, a), a, c, e.v.mul(e.v.g, y), e.v.mul(e.v.g, x))
  {
    var v := e.v;
    MulScalars(v, v.g, y, v.smul(v.smul(c, a), x));
    MulScalars(v, v.g, x, a);
    MulScalars(v, v.g, v.smul(x, a), c);
    SMulReorder(v, c, a, x);
  }

  function Excluded(ex: Exclusions): set<nat> {
    set t | 0 <= t < |ex| :: ex[t].0
  }

  /** The keys of the members not excluded, in committee order. */
  function PartialX(e: Env, committee: seq<Point>, excluded: set<nat>, n: nat): seq<Point>
    requires n <= |committee|
  {
    if n == 0 then []
    else
      PartialX(e, committee, excluded, n - 1)
      + if n - 1 in excluded then [] else [e.v.mul(committee[n - 1], IndividualInputs(e, committee)[n - 1])]
  }

  function ExcludedY(ex: Exclusions): seq<Point> {
    if ex == [] then []
    else ExcludedY(ex[..|ex| - 1]) + if ex[|ex| - 1].1.Some? then [ex[|ex| - 1].1.value.0] else []
  }

  /** `g * z == x * c + y - exY`. */
  predicate Balanced(v: Curve, gz: Point, x: Point, c: Scalar, y: Point, exY: Point) {
    gz == v.add(v.add(v.mul(x, c), y), v.neg(exY))
  }

  /** The group equation of `verify`. */
  predicate Equation(e: Env, aggY: Point, aggZ: Scalar, ex: Exclusions, committee: seq<Point>) {
    Balanced(e.v, e.v.mul(e.v.g, aggZ), SumSeq(e.v, PartialX(e, committee, Excluded(ex), |committee|)),
             e.challenge(AggregatePk(e, committee), aggY), aggY, SumSeq(e.v, ExcludedY(ex)))
  }

  predicate ProofsOk(e: Env, ex: Exclusions) {
    forall t :: 0 <= t < |ex| && ex[t].1.Some? ==> e.proofOk(ex[t].1.value.0, ex[t].1.value.1)
  }

  /** `verify`, with its early exits. */
  method Verify(e: Env, aggY: Point, aggZ: Scalar, ex: Exclusions, committee: seq<Point>, threshold: Threshold)
    returns (ok: bool)
    requires threshold.denom > 0 && |ex| <= |committee|
    ensures ok <==> Accepts(e, aggY, aggZ, ex, committee, threshold)
    ensures ok ==> forall t :: 0 <= t < |ex| && ex[t].1.Some? ==> e.proofOk(ex[t].1.value.0, ex[t].1.value.1)
    ensures ok ==> |ex| <= |committee| - threshold.Min(|committee|)
  {
    if !Equation(e, aggY, aggZ, ex, committee) {
      return false;
    }
    for t := 0 to |ex|
      invariant ProofsOk(e, ex[..t])
    {
      if ex[t].1.Some? && !e.proofOk(ex[t].1.value.0, ex[t].1.value.1) {
        return false;
      }
    }
    assert ex[..|ex|] == ex;
    ok := |committee| - |ex| >= threshold.Min(|committee|);
  }

  predicate Accepts(e: Env, aggY: Point, aggZ: Scalar, ex: Exclusions, committee: seq<Point>, threshold: Threshold)
    requires threshold.denom > 0
  {
    && Equation(e, aggY, aggZ, ex, committee)
    && ProofsOk(e, ex)
    && |committee| - |ex| >= threshold.Min(|committee|)
  }

  // ----- what the verifier sums, index by index -----

  function Committed(e: Env, cs: Commitments): nat -> Point {
    (i: nat) => if i in cs then cs[i].0 else e.v.zero
  }

  function Responded(e: Env, zs: Responses): nat -> Point {
    (i: nat) => if i in zs then e.v.mul(e.v.g, zs[i]) else e.v.zero
  }

  function Below(n: nat): (r: set<nat>)
    ensures forall i: nat :: i in r <==> i < n
    ensures |r| == n
  {
    if n == 0 then {} else Below(n - 1) + {n - 1}
  }

  lemma SumSeqPush(v: Curve, s: seq<Point>, x: Point)
    ensures SumSeq(v, s + [x]) == v.add(SumSeq(v, s), x)
  {
    assert (s + [x])[..|s|] == s;
  }

  lemma PartialXStep(e: Env, committee: seq<Point>, excluded: set<nat>, n: nat, front: Point)
    requires 0 < n <= |committee| && front == SumSeq(e.v, PartialX(e, committee, excluded, n - 1))
    requires e.v.add(front, e.v.zero) == front
    ensures SumSeq(e.v, PartialX(e, committee, excluded, n))
            == e.v.add(front, Only(e.v, Below(|committee|) - excluded, Weighted(e, committee))(n - 1))
  {
    var s := PartialX(e, committee, excluded, n - 1);
    if n - 1 in excluded {
      assert PartialX(e, committee, excluded, n) == s;
    } else {
      SumSeqPush(e.v, s, Weighted(e, committee)(n - 1));
    }
  }

  lemma {:induction false} PartialXSum(e: Env, committee: seq<Point>, excluded: set<nat>, n: nat)
    requires Laws(e.v) && n <= |committee|
    ensures SumSeq(e.v, PartialX(e, committee, excluded, n))
            == Sum(e.v, n, Only(e.v, Below(|committee|) - excluded, Weighted(e, committee)))
  {
    if n > 0 {
      PartialXSum(e, committee, excluded, n - 1);
      var front := SumSeq(e.v, PartialX(e, committee, excluded, n - 1));
      AddZero(e.v, front);
      PartialXStep(e, committee, excluded, n, front);
    }
  }

  /** The aggregate key is the sum of all weighted keys. */
  lemma AggregatePkSum(e: Env, committee: seq<Point>)
    requires Laws(e.v)
    ensures AggregatePk(e, committee) == Sum(e.v, |committee|, Weighted(e, committee))
  {
    var keys := seq(|committee|, i requires 0 <= i < |committee| => e.v.mul(committee[i], IndividualInputs(e, committee)[i]));
    SeqIsSum(e.v, keys, Weighted(e, committee), |committee|);
    assert keys[..|committee|] == keys;
  }

  lemma {:induction false} SeqIsSum(v: Curve, s: seq<Point>, f: nat -> Point, n: nat)
    requires n <= |s| && forall i: nat :: i < |s| ==> s[i] == f(i)
    ensures SumSeq(v, s[..n]) == Sum(v, n, f)
  {
    if n > 0 {
      SeqIsSum(v, s, f, n - 1);
      assert s[..n][..n - 1] == s[..n - 1];
    }
  }

  /** Every key weighted by its own input. */
  ghost predicate WeightedKeys(e: Env, committee: seq<Point>, keys: nat -> Point) {
    forall i: nat :: i < |committee| ==> keys(i) == e.v.mul(committee[i], e.individualInput(committee, committee[i]))
  }

  lemma KeysAre(e: Env, committee: seq<Point>, keys: nat -> Point, some: set<nat>)
    requires WeightedKeys(e, committee, keys)
    ensures forall i: nat :: i < |committee| ==> keys(i) == Weighted(e, committee)(i)
    ensures forall i: nat :: i < |committee| ==> Only(e.v, some, keys)(i) == Only(e.v, some, Weighted(e, committee))(i)
  {
    forall i: nat | i < |committee| ensures keys(i) == Weighted(e, committee)(i) {
      assert IndividualInputs(e, committee)[i] == e.individualInput(committee, committee[i]);
    }
  }

  lemma KeySums(e: Env, committee: seq<Point>, keys: nat -> Point, excluded: set<nat>)
    requires Laws(e.v) && WeightedKeys(e, committee, keys)
    ensures AggregatePk(e, committee) == Sum(e.v, |committee|, keys)
    ensures
      SumSeq(e.v, PartialX(e, committee, excluded, |committee|)) ==
      Sum(e.v, |committee|, Only(e.v, Below(|committee|) - excluded, keys))
  {
    var n, rest := |committee|, Below(|committee|) - excluded;
    KeysAre(e, committee, keys, rest);
    AggregatePkSum(e, committee);
    PartialXSum(e, committee, excluded, n);
    SumSame(e.v, n, Weighted(e, committee), keys);
    SumSame(e.v, n, Only(e.v, rest, Weighted(e, committee)), Only(e.v, rest, keys));
  }

  /** The equation index by index: the weighted keys not listed, under the challenge of all of them and the commitment,
      plus the commitment, less the commitments listed. */
  lemma EquationMeans(e: Env, aggY: Point, aggZ: Scalar, ex: Exclusions, committee: seq<Point>, keys: nat -> Point)
    requires Laws(e.v) && WeightedKeys(e, committee, keys)
    ensures
      var v, n := e.v, |committee|;
      var heard, c := Sum(v, n, Only(v, Below(n) - Excluded(ex), keys)), e.challenge(Sum(v, n, keys), aggY);
      Equation(e, aggY, aggZ, ex, committee) <==>
      v.mul(v.g, aggZ) == v.add(v.add(v.mul(heard, c), aggY), v.neg(SumSeq(v, ExcludedY(ex))))
  {
    KeySums(e, committee, keys, Excluded(ex));
  }

  /** The commitments listed in the exclusion set, index by index. */
  lemma {:induction false} ExcludedYSum(e: Env, cs: Commitments, ex: Exclusions, excluded: set<nat>, n: nat)
    requires Laws(e.v) && Excludes(cs, ex, excluded) && forall i :: i in excluded ==> i < n
    ensures SumSeq(e.v, ExcludedY(ex)) == Sum(e.v, n, Only(e.v, excluded, Committed(e, cs)))
    decreases |ex|
  {
    var v := e.v;
    if ex == [] {
      assert excluded == {};
      SumNothing(v, n, Only(v, excluded, Committed(e, cs)));
    } else {
      var front, last := ex[..|ex| - 1], ex[|ex| - 1];
      var rest := excluded - {last.0};
      ExcludesFront(cs, ex, excluded);
      ExcludedYSum(e, cs, front, rest, n);
      SumInsert(v, n, rest, Committed(e, cs), last.0);
      assert rest + {last.0} == excluded;
      AddZero(v, Sum(v, n, Only(v, rest, Committed(e, cs))));
      if last.1.Some? {
        assert ExcludedY(ex)[..|ExcludedY(ex)| - 1] == ExcludedY(front);
      } else {
        assert ExcludedY(ex) == ExcludedY(front);
      }
    }
  }

  lemma ExcludesFront(cs: Commitments, ex: Exclusions, excluded: set<nat>)
    requires ex != [] && Excludes(cs, ex, excluded)
    ensures ex[|ex| - 1].0 in excluded
    ensures Excludes(cs, ex[..|ex| - 1], excluded - {ex[|ex| - 1].0})
  {
    var front, rest := ex[..|ex| - 1], excluded - {ex[|ex| - 1].0};
    forall x ensures x in rest <==> exists t :: 0 <= t < |front| && front[t].0 == x {
      if x in rest {
        var t :| 0 <= t < |ex| && ex[t].0 == x;
        assert front[t].0 == x;
      }
    }
  }

  /** `ex` lists the members of `excluded`, each once, with their commitment where there is one. */
  ghost predicate Excludes(cs: Commitments, ex: Exclusions, excluded: set<nat>) {
    && (forall s, t :: 0 <= s < t < |ex| ==> ex[s].0 != ex[t].0)
    && (forall x :: x in excluded <==> exists t :: 0 <= t < |ex| && ex[t].0 == x)
    && (forall t :: 0 <= t < |ex| ==> ex[t].1 == if ex[t].0 in cs then Some(cs[ex[t].0]) else None)
  }

  // ----- when the equation holds -----

  /** A committee, the commitments it agreed on and the responses that came in. */
  datatype Round = Round(e: Env, committee: seq<Point>, cs: Commitments, zs: Responses) {
    function Y(keys: set<nat>): Point { Sum(e.v, |committee|, Only(e.v, keys, Committed(e, cs))) }
    function X(keys: set<nat>): Point { Sum(e.v, |committee|, Only(e.v, keys, Weighted(e, committee))) }
    function Z(): Point { Sum(e.v, |committee|, Only(e.v, zs.Keys, Responded(e, zs))) }

    /** The challenge derived from the commitments, in whatever order they are summed. */
    function Challenge(): Scalar { e.challenge(AggregatePk(e, committee), Y(cs.Keys)) }

    /** What member `i` contributes to the equation if it is not heard of at all. */
    function Silence(keys: set<nat>): Point { e.v.mul(X(keys), Challenge()) }

    /** Verification of one response against the commitment and the key of the same member. */
    function ResponseValid(): (nat, Scalar) -> bool {
      (i: nat, z: Scalar) =>
        i in cs && i < |committee|
        && VerifyResponse(e, z, IndividualInputs(e, committee)[i], Challenge(), cs[i].0, committee[i])
    }

    /** The group laws hold, commitments come from members, and every response verifies: what the
        earlier stages and the aggregation guarantee.  Nothing is said of the commitments' proofs. */
    ghost predicate Proper() {
      && Laws(e.v) && cs.Keys <= Below(|committee|)
      && Verifies(ResponseValid(), zs)
    }

    /** The proofs of the commitments of these members pass. */
    predicate ProofsHold(keys: set<nat>) {
      forall i :: i in keys && i in cs ==> e.proofOk(cs[i].0, cs[i].1)
    }
  }

  lemma RespondersCommitted(r: Round)
    requires r.Proper()
    ensures r.zs.Keys <= r.cs.Keys
  {
    forall i | i in r.zs ensures i in r.cs { assert r.ResponseValid()(i, r.zs[i]); }
  }

  /** Responses that verify one by one sum to the commitments plus the challenged keys. */
  lemma ResponsesSum(r: Round)
    requires r.Proper()
    ensures r.Z() == r.e.v.add(r.Y(r.zs.Keys), r.e.v.mul(r.X(r.zs.Keys), r.Challenge()))
  {
    var e, v, n, c := r.e, r.e.v, |r.committee|, r.Challenge();
    var keys := r.zs.Keys;
    var ys, ws, rs := Only(v, keys, Committed(e, r.cs)), Only(v, keys, Weighted(e, r.committee)), Only(v, keys, Responded(e, r.zs));
    var scaled := (i: nat) => v.mul(ws(i), c);
    forall i: nat | i < n ensures rs(i) == v.add(ys(i), scaled(i)) {
      if i in r.zs {
        assert r.ResponseValid()(i, r.zs[i]);
      } else {
        MulZero(v, v.zero, c);
        AddZero(v, v.zero);
      }
    }
    SumMul(v, n, ws, c, scaled);
    SumAdd(v, n, ys, scaled, rs);
  }

  /** Among commitments a set counts as much as the committed part of it. */
  lemma OnlyCommittedCount(e: Env, cs: Commitments, committed: set<nat>, keys: set<nat>)
    requires keys * cs.Keys == committed
    ensures forall i: nat :: Only(e.v, committed, Committed(e, cs))(i) == Only(e.v, keys, Committed(e, cs))(i)
  {
  }

  /** Excluding an index without a commitment takes no commitment away. */
  lemma ExcludedCommitments(r: Round, excluded: set<nat>)
    requires r.Proper() && r.zs.Keys <= r.cs.Keys && excluded * r.cs.Keys == r.cs.Keys - r.zs.Keys
    ensures r.Y(r.cs.Keys) == r.e.v.add(r.Y(r.zs.Keys), r.Y(excluded))
  {
    var v, f, n := r.e.v, Committed(r.e, r.cs), |r.committee|;
    var rest := r.cs.Keys - r.zs.Keys;
    SumSplit(v, n, r.zs.Keys, rest, f);
    assert r.zs.Keys + rest == r.cs.Keys;
    OnlyCommittedCount(r.e, r.cs, rest, excluded);
    SumSame(v, n, Only(v, rest, f), Only(v, excluded, f));
  }

  lemma SplitKeys(r: Round, a: set<nat>, b: set<nat>)
    requires r.Proper() && a !! b
    ensures r.X(a + b) == r.e.v.add(r.X(a), r.X(b))
  {
    SumSplit(r.e.v, |r.committee|, a, b, Weighted(r.e, r.committee));
  }

  /** `yR + x == ((x + s) + (yR + yE)) - yE` exactly when `s` is zero. */
  lemma Balance(v: Curve, yR: Point, yE: Point, x: Point, s: Point)
    requires Laws(v)
    ensures v.add(yR, x) == v.add(v.add(v.add(x, s), v.add(yR, yE)), v.neg(yE)) <==> s == v.zero
  {
    AddAssoc(v, v.add(x, s), yR, yE);
    Cancel(v, v.add(v.add(x, s), yR), yE);
    AddComm(v, x, s);
    AddAssoc(v, s, x, yR);
    AddComm(v, x, yR);
    AddZero(v, v.add(yR, x));
    CancelBoth(v, s, v.zero, v.add(yR, x));
  }

  /** The members neither heard, nor committed, nor excluded. */
  function Silent(r: Round, excluded: set<nat>): set<nat> {
    Below(|r.committee|) - r.cs.Keys - excluded
  }

  lemma BalancedAlgebra(v: Curve, gz: Point, x: Point, c: Scalar, y: Point, exY: Point, yR: Point, xR: Point, xS: Point)
    requires Laws(v) && gz == v.add(yR, v.mul(xR, c)) && x == v.add(xR, xS) && y == v.add(yR, exY)
    ensures Balanced(v, gz, x, c, y, exY) <==> v.mul(xS, c) == v.zero
  {
    MulAdd(v, xR, xS, c);
    Balance(v, yR, exY, v.mul(xR, c), v.mul(xS, c));
  }

  lemma HeardOrSilent(r: Round, excluded: set<nat>)
    requires r.Proper() && r.zs.Keys <= r.cs.Keys
    requires excluded <= Below(|r.committee|) && excluded * r.cs.Keys == r.cs.Keys - r.zs.Keys
    ensures Below(|r.committee|) - excluded == r.zs.Keys + Silent(r, excluded)
    ensures r.zs.Keys !! Silent(r, excluded)
  {
    forall x ensures x in Below(|r.committee|) - excluded <==> x in r.zs.Keys + Silent(r, excluded) {
      assert x in excluded && x in r.cs.Keys <==> x in r.cs.Keys - r.zs.Keys by {
        assert x in excluded * r.cs.Keys <==> x in excluded && x in r.cs.Keys;
      }
    }
  }

  /** The equation over the sums index by index. */
  lemma BalancedIff(r: Round, excluded: set<nat>)
    requires r.Proper() && excluded <= Below(|r.committee|) && excluded * r.cs.Keys == r.cs.Keys - r.zs.Keys
    ensures Balanced(r.e.v, r.Z(), r.X(Below(|r.committee|) - excluded), r.Challenge(), r.Y(r.cs.Keys), r.Y(excluded))
            <==> r.Silence(Silent(r, excluded)) == r.e.v.zero
  {
    RespondersCommitted(r);
    ResponsesSum(r);
    ExcludedCommitments(r, excluded);
    HeardOrSilent(r, excluded);
    SplitKeys(r, r.zs.Keys, Silent(r, excluded));
    BalancedAlgebra(r.e.v, r.Z(), r.X(Below(|r.committee|) - excluded), r.Challenge(), r.Y(r.cs.Keys), r.Y(excluded),
                    r.Y(r.zs.Keys), r.X(r.zs.Keys), r.X(Silent(r, excluded)));
  }

  /** What the verifier is handed: the sums, and a list of exclusions. */
  ghost predicate Certifies(r: Round, aggY: Point, aggZ: Scalar, ex: Exclusions, excluded: set<nat>) {
    && aggY == r.Y(r.cs.Keys)
    && r.e.v.mul(r.e.v.g, aggZ) == r.Z()
    && Excludes(r.cs, ex, excluded)
  }

  /** Once the committed members are either heard or excluded, the equation holds exactly when
      the members neither committed nor excluded contribute nothing under the challenge. */
  lemma EquationIff(r: Round, aggY: Point, aggZ: Scalar, ex: Exclusions, excluded: set<nat>)
    requires r.Proper() && excluded <= Below(|r.committee|) && excluded * r.cs.Keys == r.cs.Keys - r.zs.Keys
    requires Certifies(r, aggY, aggZ, ex, excluded)
    ensures Equation(r.e, aggY, aggZ, ex, r.committee) <==> r.Silence(Silent(r, excluded)) == r.e.v.zero
  {
    BalancedIff(r, excluded);
    ExcludedYSum(r.e, r.cs, ex, excluded, |r.committee|);
    PartialXSum(r.e, r.committee, Excluded(ex), |r.committee|);
    ExcludedIs(r.cs, ex, excluded);
  }

  lemma ExcludedIs(cs: Commitments, ex: Exclusions, excluded: set<nat>)
    requires Excludes(cs, ex, excluded)
    ensures Excluded(ex) == excluded
  {
  }

  lemma {:induction false} ListSize(cs: Commitments, ex: Exclusions, excluded: set<nat>)
    requires Excludes(cs, ex, excluded)
    ensures |ex| == |excluded|
    decreases |ex|
  {
    if ex == [] {
      assert excluded == {};
    } else {
      ExcludesFront(cs, ex, excluded);
      ListSize(cs, ex[..|ex| - 1], excluded - {ex[|ex| - 1].0});
    }
  }

  /** The proofs of the list pass exactly when those of the excluded members' commitments do. */
  lemma ProofsListed(r: Round, ex: Exclusions, excluded: set<nat>)
    requires Excludes(r.cs, ex, excluded)
    ensures ProofsOk(r.e, ex) <==> r.ProofsHold(excluded)
  {
    if ProofsOk(r.e, ex) {
      forall i | i in excluded && i in r.cs ensures r.e.proofOk(r.cs[i].0, r.cs[i].1) {
        var t :| 0 <= t < |ex| && ex[t].0 == i;
        assert ex[t].1 == Some(r.cs[i]);
      }
    }
  }

  lemma NobodySilent(r: Round)
    requires r.Proper()
    ensures r.Silence({}) == r.e.v.zero
  {
    SumNothing(r.e.v, |r.committee|, Only(r.e.v, {}, Weighted(r.e, r.committee)));
    MulZero(r.e.v, r.e.v.zero, r.Challenge());
  }

  /** All responders are members, so listing everyone else leaves nobody silent. */
  lemma EveryoneElse(r: Round)
    requires r.Proper()
    ensures
      var excluded := Below(|r.committee|) - r.zs.Keys;
      && excluded * r.cs.Keys == r.cs.Keys - r.zs.Keys && Silent(r, excluded) == {}
      && |r.committee| == |r.zs| + |excluded|
  {
    RespondersCommitted(r);
    CommittedBelow(r);
    Complement(Below(|r.committee|), r.cs.Keys, r.zs.Keys);
    assert |r.zs.Keys| == |r.zs|;
  }

  lemma CommittedBelow(r: Round)
    requires r.Proper()
    ensures r.cs.Keys <= Below(|r.committee|)
  {
  }

  lemma Complement(all: set<nat>, committed: set<nat>, heard: set<nat>)
    requires heard <= committed <= all
    ensures (all - heard) * committed == committed - heard && all - committed - (all - heard) == {}
    ensures |all| == |heard| + |all - heard|
  {
    assert all == heard + (all - heard);
  }

  /** Acceptance, once the equation and the length of the list are settled. */
  lemma AcceptsIff(r: Round, aggY: Point, aggZ: Scalar, ex: Exclusions, excluded: set<nat>, threshold: Threshold)
    requires r.Proper() && threshold.denom > 0 && Excludes(r.cs, ex, excluded)
    ensures Accepts(r.e, aggY, aggZ, ex, r.committee, threshold) <==>
              && Equation(r.e, aggY, aggZ, ex, r.committee) && r.ProofsHold(excluded)
              && |r.committee| - |excluded| >= threshold.Min(|r.committee|)
  {
    ProofsListed(r, ex, excluded);
    ListSize(r.cs, ex, excluded);
  }

  /** For any committee, any members that never committed and any that committed but did not
      respond: with all of them listed, the certificate is accepted exactly when enough responded
      and the proofs of the listed commitments pass. */
  lemma CertificateAccepted(r: Round, aggY: Point, aggZ: Scalar, ex: Exclusions, threshold: Threshold)
    requires r.Proper() && threshold.denom > 0
    requires Certifies(r, aggY, aggZ, ex, Below(|r.committee|) - r.zs.Keys)
    ensures Equation(r.e, aggY, aggZ, ex, r.committee)
    ensures Accepts(r.e, aggY, aggZ, ex, r.committee, threshold) <==>
              |r.zs| >= threshold.Min(|r.committee|) && r.ProofsHold(r.cs.Keys - r.zs.Keys)
  {
    var excluded := Below(|r.committee|) - r.zs.Keys;
    EveryoneElse(r);
    EquationIff(r, aggY, aggZ, ex, excluded);
    NobodySilent(r);
    AcceptsIff(r, aggY, aggZ, ex, excluded, threshold);
  }

  /** The certificate of the last stage lists only members that committed.  It is accepted exactly
      when the silent members' keys vanish under the challenge, not too many are listed, and the proof
      of every commitment listed passes. */
  lemma StageCertificateIff(r: Round, aggY: Point, aggZ: Scalar, ex: Exclusions, threshold: Threshold)
    requires r.Proper() && threshold.denom > 0
    requires Certifies(r, aggY, aggZ, ex, r.cs.Keys - r.zs.Keys)
    ensures Accepts(r.e, aggY, aggZ, ex, r.committee, threshold) <==>
              && r.Silence(Below(|r.committee|) - r.cs.Keys) == r.e.v.zero
              && |r.committee| - |r.cs.Keys - r.zs.Keys| >= threshold.Min(|r.committee|)
              && r.ProofsHold(r.cs.Keys - r.zs.Keys)
  {
    var excluded := r.cs.Keys - r.zs.Keys;
    UnansweredBelow(r);
    EquationIff(r, aggY, aggZ, ex, excluded);
    SilentNeverCommitted(r);
    AcceptsIff(r, aggY, aggZ, ex, excluded, threshold);
  }

  lemma UnansweredBelow(r: Round)
    requires r.Proper()
    ensures var excluded := r.cs.Keys - r.zs.Keys; excluded * r.cs.Keys == excluded && excluded <= Below(|r.committee|)
  {
  }

  lemma SilentNeverCommitted(r: Round)
    ensures Silent(r, r.cs.Keys - r.zs.Keys) == Below(|r.committee|) - r.cs.Keys
  {
  }

  /** When every member committed, the last stage's certificate is accepted exactly when enough
      members responded and the proofs of the others pass. */
  lemma StageCertificateAccepted(r: Round, aggY: Point, aggZ: Scalar, ex: Exclusions, threshold: Threshold)
    requires r.Proper() && threshold.denom > 0 && r.cs.Keys == Below(|r.committee|)
    requires Certifies(r, aggY, aggZ, ex, r.cs.Keys - r.zs.Keys)
    ensures Accepts(r.e, aggY, aggZ, ex, r.committee, threshold) <==>
              |r.zs| >= threshold.Min(|r.committee|) && r.ProofsHold(r.cs.Keys - r.zs.Keys)
  {
    RespondersCommitted(r);
    CertificateAccepted(r, aggY, aggZ, ex, threshold);
  }

  /** One member that never committed, and whose key does not vanish under the challenge, spoils
      the last stage's certificate, however many members responded. */
  lemma SilentMemberSpoils(r: Round, aggY: Point, aggZ: Scalar, ex: Exclusions, threshold: Threshold, i: nat)
    requires r.Proper() && threshold.denom > 0 && i < |r.committee| && r.cs.Keys == Below(|r.committee|) - {i}
    requires Certifies(r, aggY, aggZ, ex, r.cs.Keys - r.zs.Keys)
    requires r.e.v.mul(Weighted(r.e, r.committee)(i), r.Challenge()) != r.e.v.zero
    ensures !Accepts(r.e, aggY, aggZ, ex, r.committee, threshold)
  {
    StageCertificateIff(r, aggY, aggZ, ex, threshold);
    assert Below(|r.committee|) - r.cs.Keys == {i};
    OneSilent(r, i);
  }

  lemma OneSilent(r: Round, i: nat)
    requires r.Proper() && i < |r.committee|
    ensures r.X({i}) == Weighted(r.e, r.committee)(i)
  {
    var v, n, f := r.e.v, |r.committee|, Weighted(r.e, r.committee);
    SumInsert(v, n, {}, f, i);
    assert {} + {i} == {i};
    SumNothing(v, n, Only(v, {}, f));
    AddZero(v, f(i));
  }

  // ----- the stages that build it -----

  /** The entries of a map in the order an iteration happens to yield them. */
  method ListKeys(keys: set<nat>) returns (ixs: seq<nat>)
    ensures Lists(ixs, keys)
  {
    ixs := [];
    var todo := keys;
    while todo != {}
      invariant todo <= keys
      invariant Lists(ixs, keys - todo)
      decreases todo
    {
      var k :| k in todo;
      ixs := ixs + [k];
      todo := todo - {k};
    }
  }

  /** The aggregate commitment of the broadcast stage. */
  method AggregateCommitment(r: Round) returns (aggY: Point)
    requires Laws(r.e.v) && r.cs.Keys <= Below(|r.committee|)
    ensures aggY == r.Y(r.cs.Keys)
  {
    var ixs := ListKeys(r.cs.Keys);
    var points := seq(|ixs|, t requires 0 <= t < |ixs| => if ixs[t] in r.cs then r.cs[ixs[t]].0 else r.e.v.zero);
    SumListed(r.e.v, |r.committee|, ixs, r.cs.Keys, Committed(r.e, r.cs), points);
    aggY := SumSeq(r.e.v, points);
  }

  lemma ElementsStep(s: seq<nat>, t: nat, without: set<nat>)
    requires t < |s|
    ensures Elements(s[..t + 1]) - without == (Elements(s[..t]) - without) + ({s[t]} - without)
  {
    assert s[..t + 1] == s[..t] + [s[t]];
  }

  /** Everyone who committed but did not respond, with the commitment. */
  method ListExclusions(cs: Commitments, zs: Responses) returns (ex: Exclusions)
    ensures Excludes(cs, ex, cs.Keys - zs.Keys)
  {
    ex := [];
    var entries := ListKeys(cs.Keys);
    for t := 0 to |entries|
      invariant Excludes(cs, ex, Elements(entries[..t]) - zs.Keys)
    {
      var pix := entries[t];
      ElementsStep(entries, t, zs.Keys);
      assert pix in entries && pix !in entries[..t];
      if pix !in zs {
        ExcludesAppend(cs, ex, Elements(entries[..t]) - zs.Keys, pix);
        ex := ex + [(pix, Some(cs[pix]))];
        assert {pix} - zs.Keys == {pix};
      } else {
        assert {pix} - zs.Keys == {};
      }
    }
    assert entries[..|entries|] == entries;
    assert Elements(entries) == cs.Keys;
  }

  /** `AggregateResponses::complete`. */
  method CompleteResponses(r: Round) returns (aggZ: Scalar, ex: Exclusions)
    requires Laws(r.e.v) && r.zs.Keys <= r.cs.Keys <= Below(|r.committee|)
    ensures Excludes(r.cs, ex, r.cs.Keys - r.zs.Keys)
    ensures r.e.v.mul(r.e.v.g, aggZ) == r.Z()
  {
    ex := ListExclusions(r.cs, r.zs);
    aggZ := AggregateResponse(r);
  }

  /** The sum of the responses, in the order an iteration yields them. */
  method AggregateResponse(r: Round) returns (aggZ: Scalar)
    requires Laws(r.e.v) && r.zs.Keys <= Below(|r.committee|)
    ensures r.e.v.mul(r.e.v.g, aggZ) == r.Z()
  {
    var v := r.e.v;
    var ixs := ListKeys(r.zs.Keys);
    var scalars := seq(|ixs|, t requires 0 <= t < |ixs| => if ixs[t] in r.zs then r.zs[ixs[t]] else v.szero);
    aggZ := SumScalars(v, scalars);
    ghost var points := seq(|ixs|, t requires 0 <= t < |ixs| => v.mul(v.g, scalars[t]));
    SumScalarsActs(v, scalars, points);
    SumListed(v, |r.committee|, ixs, r.zs.Keys, Responded(r.e, r.zs), points);
  }

  lemma ExcludesAppend(cs: Commitments, ex: Exclusions, excluded: set<nat>, pix: nat)
    requires Excludes(cs, ex, excluded) && pix in cs && pix !in excluded
    ensures Excludes(cs, ex + [(pix, Some(cs[pix]))], excluded + {pix})
  {
    var longer := ex + [(pix, Some(cs[pix]))];
    forall x ensures x in excluded + {pix} <==> exists t :: 0 <= t < |longer| && longer[t].0 == x {
      if x == pix { assert longer[|ex|].0 == x; }
      if x in excluded {
        var t :| 0 <= t < |ex| && ex[t].0 == x;
        assert longer[t].0 == x;
      }
    }
  }

  /** The last two stages put together: the certificate they build is accepted exactly when the members that
      never committed vanish under the challenge, not too many are listed, and every listed commitment's proof
      passes; when every member committed and all proofs pass, exactly when the responses reach the threshold. */
  method AggregateAndVerify(r: Round, threshold: Threshold) returns (ok: bool)
    requires r.Proper() && threshold.denom > 0
    ensures ok <==>
      && r.Silence(Below(|r.committee|) - r.cs.Keys) == r.e.v.zero
      && |r.committee| - |r.cs.Keys - r.zs.Keys| >= threshold.Min(|r.committee|)
      && r.ProofsHold(r.cs.Keys - r.zs.Keys)
    ensures r.cs.Keys == Below(|r.committee|) && r.ProofsHold(r.cs.Keys) ==> (ok <==> |r.zs| >= threshold.Min(|r.committee|))
  {
    RespondersCommitted(r);
    CommittedBelow(r);
    var aggY := AggregateCommitment(r);
    var aggZ, ex := CompleteResponses(r);
    ListSize(r.cs, ex, r.cs.Keys - r.zs.Keys);
    Subset(r.cs.Keys - r.zs.Keys, Below(|r.committee|));
    StageCertificateIff(r, aggY, aggZ, ex, threshold);
    if r.cs.Keys == Below(|r.committee|) {
      StageCertificateAccepted(r, aggY, aggZ, ex, threshold);
    }
    ok := Verify(r.e, aggY, aggZ, ex, r.committee, threshold);
  }
}
