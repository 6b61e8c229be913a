/** Contributions of peers, indexed by peer: a partial commutative semigroup with a weight,
    verified entry by entry. */
module Contributions {
  import opened Prelude

  type Contribution<V> = map<nat, V>

  predicate Compatible<V(==)>(a: Contribution<V>, b: Contribution<V>) {
    forall k :: k in a && k in b ==> a[k] == b[k]
  }

  /** Everything in `a` is in `b` too. */
  predicate Part<V(==)>(a: Contribution<V>, b: Contribution<V>) {
    forall k :: k in a ==> k in b && a[k] == b[k]
  }

  /** Combining succeeds exactly when the two agree on every shared peer. */
  function TryCombine<V(==)>(a: Contribution<V>, b: Contribution<V>): Option<Contribution<V>> {
    if Compatible(a, b) then Some(a + b) else None
  }

  /** Entries verify one by one, as in every instance the protocol uses. */
  predicate Verifies<V>(valid: (nat, V) -> bool, c: Contribution<V>) {
    forall k :: k in c ==> valid(k, c[k])
  }

  /** The loop of `try_combine`, over the entries of `b` in any order. */
  method Combine<V(==)>(a: Contribution<V>, b: Contribution<V>) returns (r: Option<Contribution<V>>)
    ensures r == TryCombine(a, b)
  {
    var bf := a;
    var todo := b.Keys;
    while todo != {}
      invariant todo <= b.Keys
      invariant bf.Keys == a.Keys + (b.Keys - todo)
      invariant forall k :: k in a ==> bf[k] == a[k]
      invariant forall k :: k in b && k !in todo ==> bf[k] == b[k]
      decreases todo
    {
      var k :| k in todo;
      if k in bf {
        if b[k] != bf[k] {
          return None;
        }
      } else {
        bf := bf[k := b[k]];
      }
      todo := todo - {k};
    }
    assert bf == a + b;
    r := Some(bf);
  }

  lemma CombineCommutes<V(!new)>(a: Contribution<V>, b: Contribution<V>)
    ensures TryCombine(a, b) == TryCombine(b, a)
  {
    if Compatible(a, b) { assert a + b == b + a; }
  }

  /** Combining the result of an earlier combination, if there was one. */
  function ThenCombine<V(==)>(a: Option<Contribution<V>>, b: Option<Contribution<V>>): Option<Contribution<V>> {
    if a.None? || b.None? then None else TryCombine(a.value, b.value)
  }

  lemma CompatibleSplit<V(!new)>(a: Contribution<V>, b: Contribution<V>, c: Contribution<V>)
    requires Compatible(a, b)
    ensures Compatible(a + b, c) <==> Compatible(a, c) && Compatible(b, c)
  {
    if Compatible(a + b, c) {
      forall k | k in a && k in c ensures a[k] == c[k] { assert k in a + b && (a + b)[k] == a[k]; }
      forall k | k in b && k in c ensures b[k] == c[k] { assert k in a + b && (a + b)[k] == b[k]; }
    }
  }

  /** Three combine in one order exactly when they do in the other, with the same result; so do failures. */
  lemma CombineAssociates<V(!new)>(a: Contribution<V>, b: Contribution<V>, c: Contribution<V>)
    ensures ThenCombine(TryCombine(a, b), Some(c)) == ThenCombine(Some(a), TryCombine(b, c))
  {
    if Compatible(a, b) { CompatibleSplit(a, b, c); }
    if Compatible(b, c) { CompatibleSplit(b, c, a); }
    assert Compatible(b + c, a) <==> Compatible(a, b + c);
    if Compatible(a, b) && Compatible(b, c) && Compatible(a, c) {
      assert a + b + c == a + (b + c);
    }
  }

  /** A combination verifies exactly when both parts do. */
  lemma CombineVerifies<V>(valid: (nat, V) -> bool, a: Contribution<V>, b: Contribution<V>)
    requires Compatible(a, b)
    ensures Verifies(valid, a + b) <==> Verifies(valid, a) && Verifies(valid, b)
  {
    assert forall k :: k in a ==> (a + b)[k] == a[k];
    if Verifies(valid, a + b) {
      forall k | k in a ensures valid(k, a[k]) { assert k in a + b; }
      forall k | k in b ensures valid(k, b[k]) { assert k in a + b; }
    }
  }

  lemma SupersetSize(a: set<nat>, b: set<nat>)
    requires a <= b
    ensures |a| <= |b| && (|a| == |b| ==> a == b)
  {
    assert b == a + (b - a);
    assert |b| == |a| + |b - a|;
  }

  /** Weight never drops, and stays put exactly when nothing new came in. */
  lemma CombineWeight<V>(a: Contribution<V>, b: Contribution<V>)
    requires Compatible(a, b)
    ensures |a| <= |a + b|
    ensures |a + b| == |a| <==> a + b == a
  {
    SupersetSize(a.Keys, (a + b).Keys);
    if (a + b).Keys == a.Keys {
      forall k | k in a ensures (a + b)[k] == a[k] {
        assert k in (a + b).Keys;
      }
    }
  }

  // ----- parts of one whole -----

  lemma PartTransitive<V>(a: Contribution<V>, b: Contribution<V>, c: Contribution<V>)
    requires Part(a, b) && Part(b, c)
    ensures Part(a, c)
  {
  }

  /** Parts of one whole combine, and the result is such a part again. */
  lemma PartsCombine<V>(a: Contribution<V>, b: Contribution<V>, t: Contribution<V>)
    requires Part(a, t) && Part(b, t)
    ensures Compatible(a, b) && Part(a + b, t) && Part(a, a + b) && Part(b, a + b)
  {
  }

  lemma PartVerifies<V>(valid: (nat, V) -> bool, a: Contribution<V>, t: Contribution<V>)
    requires Part(a, t) && Verifies(valid, t)
    ensures Verifies(valid, a)
  {
  }

  lemma PartWeighs<V>(a: Contribution<V>, b: Contribution<V>)
    requires Part(a, b)
    ensures |a| <= |b| && (|a| == |b| ==> a == b)
  {
    SupersetSize(a.Keys, b.Keys);
    if a.Keys == b.Keys {
      forall k | k in b ensures k in a && a[k] == b[k] {
        assert k in a.Keys;
      }
    }
  }
}
