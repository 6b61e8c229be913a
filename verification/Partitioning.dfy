/** Stable sorting by key, as the standard library's `sort_by_key`. */
module Sorting {
  import opened Prelude

  /** Places `x` before every element of `s` whose key is not smaller. */
  function Insert<T>(key: T -> int, x: T, s: seq<T>): seq<T> {
    if s == [] || key(x) <= key(s[0]) then [x] + s else [s[0]] + Insert(key, x, s[1..])
  }

  function SortByKey<T>(key: T -> int, s: seq<T>): seq<T> {
    if s == [] then [] else Insert(key, s[0], SortByKey(key, s[1..]))
  }

  predicate Sorted<T>(key: T -> int, s: seq<T>) {
    |s| <= 1 || (key(s[0]) <= key(s[1]) && Sorted(key, s[1..]))
  }

  lemma {:induction false} HeadLeast<T>(key: T -> int, s: seq<T>, i: nat)
    requires Sorted(key, s) && i < |s|
    ensures key(s[0]) <= key(s[i])
  {
    if i > 0 { HeadLeast(key, s[1..], i - 1); }
  }

  lemma {:induction false} SortedPairs<T>(key: T -> int, s: seq<T>)
    requires Sorted(key, s)
    ensures forall i, j :: 0 <= i < j < |s| ==> key(s[i]) <= key(s[j])
  {
    if |s| > 1 {
      SortedPairs(key, s[1..]);
      forall i, j | 0 <= i < j < |s| ensures key(s[i]) <= key(s[j]) {
        if i == 0 { HeadLeast(key, s, j); } else { assert s[i] == s[1..][i - 1] && s[j] == s[1..][j - 1]; }
      }
    }
  }

  predicate Distinct<T(==)>(s: seq<T>) {
    forall i, j :: 0 <= i < j < |s| ==> s[i] != s[j]
  }

  lemma {:induction false} InsertKeeps<T>(key: T -> int, x: T, s: seq<T>)
    ensures multiset(Insert(key, x, s)) == multiset(s) + multiset{x}
    ensures Sorted(key, s) ==> Sorted(key, Insert(key, x, s))
  {
    if s != [] && key(x) > key(s[0]) {
      InsertKeeps(key, x, s[1..]);
      assert s == [s[0]] + s[1..];
      var r := Insert(key, x, s);
      assert r[1..] == Insert(key, x, s[1..]);
    } else {
      assert ([x] + s)[1..] == s;
    }
  }

  function WithKey<T>(key: T -> int, k: int, s: seq<T>): seq<T> {
    if s == [] then [] else (if key(s[0]) == k then [s[0]] else []) + WithKey(key, k, s[1..])
  }

  lemma WithKeyCons<T>(key: T -> int, k: int, x: T, s: seq<T>)
    ensures WithKey(key, k, [x] + s) == (if key(x) == k then [x] else []) + WithKey(key, k, s)
  {
    assert ([x] + s)[1..] == s;
  }

  lemma {:induction false} InsertStable<T>(key: T -> int, x: T, s: seq<T>, k: int)
    ensures WithKey(key, k, Insert(key, x, s)) == (if key(x) == k then [x] else []) + WithKey(key, k, s)
  {
    if s == [] || key(x) <= key(s[0]) {
      WithKeyCons(key, k, x, s);
    } else {
      var y, rest := s[0], s[1..];
      var wx, wy := if key(x) == k then [x] else [], if key(y) == k then [y] else [];
      InsertStable(key, x, rest, k);
      WithKeyCons(key, k, y, Insert(key, x, rest));
      assert WithKey(key, k, Insert(key, x, s)) == wy + (wx + WithKey(key, k, rest));
      assert WithKey(key, k, s) == wy + WithKey(key, k, rest);
      EitherEmpty(wx, wy, WithKey(key, k, rest));
    }
  }

  lemma EitherEmpty<T>(a: seq<T>, b: seq<T>, c: seq<T>)
    requires a == [] || b == []
    ensures b + (a + c) == a + (b + c)
  {
    if a == [] {
      assert a + c == c && a + (b + c) == b + c;
    } else {
      assert b + (a + c) == a + c && b + c == c;
    }
  }

  /** Elements of equal key keep their order. */
  lemma {:induction false} SortStable<T>(key: T -> int, s: seq<T>, k: int)
    ensures WithKey(key, k, SortByKey(key, s)) == WithKey(key, k, s)
  {
    if s != [] {
      SortStable(key, s[1..], k);
      InsertStable(key, s[0], SortByKey(key, s[1..]), k);
    }
  }

  /** `r` is `s` put in order. */
  predicate PermutesSorted<T(==)>(key: T -> int, s: seq<T>, r: seq<T>) {
    multiset(r) == multiset(s) && Sorted(key, r)
  }

  /** Sorting permutes its input and puts it in order. */
  lemma {:induction false} SortCorrect<T>(key: T -> int, s: seq<T>)
    ensures multiset(SortByKey(key, s)) == multiset(s)
    ensures Sorted(key, SortByKey(key, s))
  {
    if s != [] {
      SortCorrect(key, s[1..]);
      InsertKeeps(key, s[0], SortByKey(key, s[1..]));
      assert s == [s[0]] + s[1..];
    }
  }

  lemma {:induction false} SameElements<T>(a: seq<T>, b: seq<T>)
    requires multiset(a) == multiset(b)
    ensures |a| == |b|
    ensures forall x :: x in a <==> x in b
  {
    assert |multiset(a)| == |a| && |multiset(b)| == |b|;
    forall x ensures x in a <==> x in b {
      assert x in a <==> x in multiset(a);
    }
  }

  /** No element occurs twice. */
  ghost predicate Once<T(!new)>(s: seq<T>) {
    forall x :: multiset(s)[x] <= 1
  }

  lemma {:induction false} DistinctIsOnce<T(!new)>(s: seq<T>)
    ensures Distinct(s) <==> Once(s)
  {
    if s != [] {
      var rest := s[1..];
      assert s == [s[0]] + rest;
      assert forall x :: multiset(s)[x] == multiset(rest)[x] + if x == s[0] then 1 else 0;
      DistinctIsOnce(rest);
      assert s[0] in rest <==> multiset(rest)[s[0]] > 0;
      assert Distinct(s) <==> Distinct(rest) && s[0] !in rest by {
        if Distinct(rest) && s[0] !in rest {
          forall i, j | 0 <= i < j < |s| ensures s[i] != s[j] {
            if i > 0 { assert rest[i - 1] != rest[j - 1]; }
          }
        }
      }
      assert Once(s) <==> Once(rest) && multiset(rest)[s[0]] == 0 by {
        if Once(s) {
          assert multiset(s)[s[0]] <= 1;
          forall x ensures multiset(rest)[x] <= 1 { assert multiset(s)[x] <= 1; }
        }
      }
    }
  }

  lemma PermutationDistinct<T(!new)>(a: seq<T>, b: seq<T>)
    requires multiset(a) == multiset(b) && Distinct(a)
    ensures Distinct(b)
  {
    DistinctIsOnce(a);
    DistinctIsOnce(b);
    assert Once(b);
  }

  lemma {:induction false} DistinctSize<T>(s: seq<T>)
    requires Distinct(s)
    ensures |Elements(s)| == |s|
  {
    if s != [] {
      var rest := s[1..];
      DistinctSize(rest);
      assert Elements(s) == {s[0]} + Elements(rest);
    }
  }

  predicate InjectiveOn<T(==)>(key: T -> int, s: seq<T>) {
    forall i, j :: 0 <= i < j < |s| ==> s[i] != s[j] ==> key(s[i]) != key(s[j])
  }

  lemma SortedHead<T>(key: T -> int, a: seq<T>, b: seq<T>)
    requires multiset(a) == multiset(b) && a != []
    requires Sorted(key, a) && Sorted(key, b) && InjectiveOn(key, a)
    ensures |a| == |b|
    ensures b != [] && a[0] == b[0]
  {
    SameElements(a, b);
    assert a[0] in b && b[0] in a;
    var i :| 0 <= i < |b| && b[i] == a[0];
    var j :| 0 <= j < |a| && a[j] == b[0];
    HeadLeast(key, a, j);
    HeadLeast(key, b, i);
  }

  lemma SortedTail<T>(key: T -> int, a: seq<T>)
    requires a != [] && Sorted(key, a)
    ensures Sorted(key, a[1..])
    ensures InjectiveOn(key, a) ==> InjectiveOn(key, a[1..])
    ensures multiset(a[1..]) == multiset(a) - multiset{a[0]}
  {
    assert a == [a[0]] + a[1..];
  }

  /** The sorted order of distinct keys does not depend on the order they came in. */
  lemma {:induction false} SortCanonical<T>(key: T -> int, a: seq<T>, b: seq<T>)
    requires multiset(a) == multiset(b)
    requires Sorted(key, a) && Sorted(key, b) && InjectiveOn(key, a)
    ensures a == b
    decreases |a|
  {
    if a == [] {
      SameElements(a, b);
    } else {
      SortedHead(key, a, b);
      SortedTail(key, a);
      SortedTail(key, b);
      SortCanonical(key, a[1..], b[1..]);
      assert a == [a[0]] + a[1..] && b == [b[0]] + b[1..];
    }
  }

  // ----- where sorting puts an element -----

  /** The number of elements of smaller key. */
  function CountBelow<T>(key: T -> int, k: int, s: seq<T>): nat {
    if s == [] then 0 else (if key(s[0]) < k then 1 else 0) + CountBelow(key, k, s[1..])
  }

  /** The number of elements a stable sort puts before `x`: those of smaller key, and those of equal key that
      come before it. */
  function Place<T(==)>(key: T -> int, x: T, s: seq<T>): nat {
    if s == [] then 0
    else if s[0] == x then CountBelow(key, key(x), s[1..])
    else (if key(s[0]) <= key(x) then 1 else 0) + Place(key, x, s[1..])
  }

  lemma {:induction false} CountBelowInsert<T>(key: T -> int, k: int, x: T, s: seq<T>)
    ensures CountBelow(key, k, Insert(key, x, s)) == (if key(x) < k then 1 else 0) + CountBelow(key, k, s)
  {
    if s == [] || key(x) <= key(s[0]) {
      assert ([x] + s)[1..] == s;
    } else {
      CountBelowInsert(key, k, x, s[1..]);
      assert ([s[0]] + Insert(key, x, s[1..]))[1..] == Insert(key, x, s[1..]);
    }
  }

  lemma {:induction false} CountBelowSort<T>(key: T -> int, k: int, s: seq<T>)
    ensures CountBelow(key, k, SortByKey(key, s)) == CountBelow(key, k, s)
  {
    if s != [] {
      CountBelowSort(key, k, s[1..]);
      CountBelowInsert(key, k, s[0], SortByKey(key, s[1..]));
    }
  }

  lemma {:induction false} NoneBelow<T>(key: T -> int, k: int, s: seq<T>)
    requires Sorted(key, s) && (s != [] ==> k <= key(s[0]))
    ensures CountBelow(key, k, s) == 0
  {
    if |s| > 1 { NoneBelow(key, k, s[1..]); }
  }

  lemma {:induction false} PlaceJoin<T>(key: T -> int, x: T, a: seq<T>, b: seq<T>)
    requires x in a
    ensures Place(key, x, a + b) == Place(key, x, a) + CountBelow(key, key(x), b)
  {
    assert (a + b)[1..] == a[1..] + b;
    if a[0] == x {
      CountBelowJoin(key, key(x), a[1..], b);
    } else {
      PlaceJoin(key, x, a[1..], b);
    }
  }

  lemma {:induction false} CountBelowJoin<T>(key: T -> int, k: int, a: seq<T>, b: seq<T>)
    ensures CountBelow(key, k, a + b) == CountBelow(key, k, a) + CountBelow(key, k, b)
  {
    if a == [] {
      assert a + b == b;
    } else {
      assert (a + b)[1..] == a[1..] + b;
      CountBelowJoin(key, k, a[1..], b);
    }
  }
}

/** The binomial partition of the peers that Handel aggregates over. */
module Partitioning {
  import opened Prelude
  import opened Sorting

  type PeerId(==, !new)

  // ----- levels of an index -----

  /** The number of the block of size `2^l` that holds `i`: `i >> l`. */
  function Block(i: nat, l: nat): nat {
    if l == 0 then i else Block(i, l - 1) / 2
  }

  /** The first index of block `b` of size `2^l`. */
  function BlockStart(b: nat, l: nat): nat
    decreases l
  {
    if l == 0 then b else BlockStart(2 * b, l - 1)
  }

  /** `j` is at level `l` of `i`: they share the block of size `2^l`, not the one of size `2^(l-1)`. */
  predicate AtLevel(i: nat, j: nat, l: nat) {
    l > 0 && Block(i, l) == Block(j, l) && Block(i, l - 1) != Block(j, l - 1)
  }

  function Sibling(b: nat): nat {
    if b % 2 == 0 then b + 1 else b - 1
  }

  function Range(lo: nat, hi: nat): seq<nat>
    requires lo <= hi
  {
    seq(hi - lo, x requires 0 <= x < hi - lo => lo + x)
  }

  /** The indices at level `l` of `i`, in order: the sibling block of size `2^(l-1)`. */
  function Level(i: nat, l: nat): (r: seq<nat>) {
    if l == 0 then []
    else
      var first := BlockStart(Sibling(Block(i, l - 1)), l - 1);
      Range(first, first + Pow2(l - 1))
  }

  lemma {:induction false} NextBlock(b: nat, l: nat)
    ensures BlockStart(b + 1, l) == BlockStart(b, l) + Pow2(l)
    decreases l
  {
    if l > 0 {
      NextBlock(2 * b, l - 1);
      NextBlock(2 * b + 1, l - 1);
    }
  }

  lemma {:induction false} InBlock(i: nat, l: nat, b: nat)
    ensures Block(i, l) == b <==> BlockStart(b, l) <= i < BlockStart(b, l) + Pow2(l)
  {
    if l > 0 {
      InBlock(i, l - 1, 2 * b);
      InBlock(i, l - 1, 2 * b + 1);
      NextBlock(2 * b, l - 1);
    }
  }

  lemma LevelMembers(i: nat, l: nat, j: nat)
    ensures j in Level(i, l) <==> AtLevel(i, j, l)
  {
    if l > 0 {
      var first := BlockStart(Sibling(Block(i, l - 1)), l - 1);
      InBlock(j, l - 1, Sibling(Block(i, l - 1)));
      assert AtLevel(i, j, l) <==> Block(j, l - 1) == Sibling(Block(i, l - 1));
      if AtLevel(i, j, l) {
        assert Level(i, l)[j - first] == j;
      }
    }
  }

  lemma {:induction false} BlocksStayShared(i: nat, j: nat, a: nat, b: nat)
    requires a <= b && Block(i, a) == Block(j, a)
    ensures Block(i, b) == Block(j, b)
    decreases b
  {
    if a < b { BlocksStayShared(i, j, a, b - 1); }
  }

  lemma {:induction false} FirstBlock(l: nat)
    ensures BlockStart(0, l) == 0
  {
    if l > 0 { FirstBlock(l - 1); }
  }

  lemma WholeBlock(i: nat, k: nat)
    ensures Block(i, k) == 0 <==> i < Pow2(k)
  {
    InBlock(i, k, 0);
    FirstBlock(k);
  }

  /** Being at a level of each other is symmetric. */
  lemma LevelsSymmetric(i: nat, j: nat, l: nat)
    ensures j in Level(i, l) <==> i in Level(j, l)
  {
    LevelMembers(i, l, j);
    LevelMembers(j, l, i);
  }

  lemma LevelsDisjoint(i: nat, j: nat, a: nat, b: nat)
    requires AtLevel(i, j, a) && AtLevel(i, j, b)
    ensures a == b
  {
    if a < b { BlocksStayShared(i, j, a, b - 1); }
    if b < a { BlocksStayShared(i, j, b, a - 1); }
  }

  lemma LevelOf(i: nat, j: nat, k: nat) returns (l: nat)
    requires i != j && i < Pow2(k) && j < Pow2(k)
    ensures 0 < l <= k && AtLevel(i, j, l)
  {
    l := k;
    WholeBlock(i, k);
    WholeBlock(j, k);
    while Block(i, l - 1) == Block(j, l - 1)
      invariant 0 < l <= k && Block(i, l) == Block(j, l)
      decreases l
    {
      l := l - 1;
    }
  }

  lemma LevelInRange(i: nat, j: nat, l: nat, k: nat)
    requires l <= k && i < Pow2(k) && AtLevel(i, j, l)
    ensures j < Pow2(k) && j != i
  {
    BlocksStayShared(i, j, l, k);
    WholeBlock(i, k);
    WholeBlock(j, k);
  }

  // ----- bin_partition -----

  /** All levels of `i` among `2^k` indices, level 0 first. */
  function Levels(i: nat, k: nat): (r: seq<seq<nat>>)
    ensures |r| == k + 1
  {
    seq(k + 1, l requires 0 <= l <= k => Level(i, l))
  }

  /** Which half of its block of size `2^r` an index is in, and where its sibling half lies. */
  lemma SplitBlock(i: nat, r: nat)
    requires r > 0
    ensures
      var half, lo := Pow2(r - 1), BlockStart(Block(i, r), r);
      var inUpper := i >= lo + half;
      && lo <= i < lo + 2 * half
      && BlockStart(Block(i, r - 1), r - 1) == (if inUpper then lo + half else lo)
      && BlockStart(Sibling(Block(i, r - 1)), r - 1) == (if inUpper then lo else lo + half)
  {
    InBlock(i, r - 1, Block(i, r - 1));
    NextBlock(2 * Block(i, r), r - 1);
  }

  /** Levels `k` down to `r + 1`, in the order the bisection meets them. */
  function Descending(i: nat, k: nat, r: nat): (d: seq<seq<nat>>)
    requires r <= k
    ensures |d| == k - r
    ensures forall t :: 0 <= t < k - r ==> d[t] == Level(i, k - t)
    decreases k - r
  {
    if r == k then [] else Descending(i, k, r + 1) + [Level(i, r + 1)]
  }

  /** One bisection: the half without the own index is the next level. */
  lemma DescendingStep(i: nat, k: nat, r: nat, min: nat)
    requires 0 < r <= k && min == BlockStart(Block(i, r), r)
    ensures
      var half := Pow2(r - 1);
      var upper := i >= min + half;
      && Descending(i, k, r - 1) == Descending(i, k, r) + [if upper then Range(min, min + half) else Range(min + half, min + 2 * half)]
      && BlockStart(Block(i, r - 1), r - 1) == if upper then min + half else min
  {
    SplitBlock(i, r);
  }

  /** Reversed after the empty level is pushed, the bisection's output is the levels. */
  lemma DescendingReversed(i: nat, k: nat)
    ensures Reverse(Descending(i, k, 0) + [[]]) == Levels(i, k)
  {
    var levels := Descending(i, k, 0);
    var d: seq<seq<nat>> := levels + [[]];
    var r := Reverse(d);
    assert |d| == k + 1;
    forall l: nat | l <= k ensures r[l] == Level(i, l) {
      assert r[l] == d[k - l];
      if l > 0 {
        assert d[k - l] == levels[k - l] == Level(i, k - (k - l));
      } else {
        assert Level(i, 0) == [];
      }
    }
    assert forall l :: 0 <= l <= k ==> Levels(i, k)[l] == Level(i, l);
  }

  lemma MiddleOfBlock(r: nat, min: nat, max: nat)
    requires r > 0 && max == min + Pow2(r) - 1
    ensures min + (max - min) / 2 == min + Pow2(r - 1) - 1
  {
    assert Pow2(r) == 2 * Pow2(r - 1);
  }

  lemma SizeOne(r: nat)
    ensures Pow2(r) == 1 <==> r == 0
  {
  }

  /** One turn of the bisection in terms of the middle it computes. */
  lemma Bisects(i: nat, k: nat, r: nat, min: nat, max: nat)
    requires 0 < r <= k && min == BlockStart(Block(i, r), r) && max == min + Pow2(r) - 1
    ensures
      var mid := min + (max - min) / 2;
      && mid + 1 == min + Pow2(r - 1) && max == mid + Pow2(r - 1) && (min == mid <==> r == 1)
      && Descending(i, k, r - 1) == Descending(i, k, r) + [if i > mid then Range(min, mid + 1) else Range(mid + 1, max + 1)]
      && BlockStart(Block(i, r - 1), r - 1) == if i > mid then mid + 1 else min
  {
    MiddleOfBlock(r, min, max);
    SizeOne(r - 1);
    DescendingStep(i, k, r, min);
  }

  /** The bounds and the output of the bisection when blocks of size `2^r` are left. */
  ghost predicate Bisected(i: nat, k: nat, r: nat, min: nat, max: int, out: seq<seq<nat>>) {
    r <= k && min == BlockStart(Block(i, r), r) && max == min + Pow2(r) - 1 && out == Descending(i, k, r)
  }

  lemma BisectTurn(i: nat, k: nat, r: nat, min: nat, max: nat, out: seq<seq<nat>>)
    requires 0 < r && Bisected(i, k, r, min, max, out)
    ensures
      var mid := min + (max - min) / 2;
      && min <= mid < max
      && (i > mid ==> Bisected(i, k, r - 1, mid + 1, max, out + [Range(min, mid + 1)]) && (mid + 1 == max <==> r == 1))
      && (i <= mid ==> Bisected(i, k, r - 1, min, mid, out + [Range(mid + 1, max + 1)]) && (min == mid <==> r == 1))
  {
    Bisects(i, k, r, min, max);
    SizeOne(r - 1);
  }

  lemma OneNode(i: nat, min: nat, max: nat, out: seq<seq<nat>>)
    requires Bisected(i, 0, 0, min, max, out)
    ensures min == max == i && min + (max - min) / 2 == i && out + [Range(max + 1, max + 1)] == [[]]
  {
    assert Range(max + 1, max + 1) == [] && out == [];
  }

  lemma BisectResult(i: nat, k: nat, out: seq<seq<nat>>)
    requires out == if k == 0 then [[]] else Descending(i, k, 0)
    ensures Reverse(out + [[]]) == if k == 0 then [[], []] else Levels(i, k)
  {
    DescendingReversed(i, k);
    if k == 0 { assert Reverse(out + [[]]) == [[], []]; }
  }

  /** For two or more nodes the bisection yields the levels; one node gets an extra empty level. */
  method BinPartition(ownIndex: nat, numNodes: nat, ghost k: nat) returns (partitions: seq<seq<nat>>)
    requires numNodes == Pow2(k) && ownIndex < numNodes
    ensures partitions == if k == 0 then [[], []] else Levels(ownIndex, k)
  {
    partitions := [];
    var min, max := 0, numNodes - 1;
    ghost var r: nat := k;
    WholeBlock(ownIndex, k);
    FirstBlock(k);
    while true
      invariant 0 <= min <= max && (r == 0 ==> k == 0) && Bisected(ownIndex, k, r, min, max, partitions)
      decreases r
    {
      if r > 0 { BisectTurn(ownIndex, k, r, min, max, partitions); } else { OneNode(ownIndex, min, max, partitions); }
      var mid := min + (max - min) / 2;
      if ownIndex > mid {
        partitions := partitions + [Range(min, mid + 1)];
        min := mid + 1;
      } else if ownIndex <= mid {
        partitions := partitions + [Range(mid + 1, max + 1)];
        max := mid;
      }
      r := if r > 0 then r - 1 else 0;
      if min == max {
        assert partitions == if k == 0 then [[]] else Descending(ownIndex, k, 0);
        break;
      }
    }
    BisectResult(ownIndex, k, partitions);
    partitions := partitions + [[]];
    partitions := Reverse(partitions);
  }

  predicate InSomeLevel(levels: seq<seq<nat>>, j: nat) {
    exists l :: 0 < l < |levels| && j in levels[l]
  }

  /** For every power of two of at least two nodes: one level per bit, of sizes 0, 1, 2, 4, ...,
      together covering every index but the own one exactly once, and symmetric. */
  lemma BinomialPartition(i: nat, k: nat)
    requires k > 0 && i < Pow2(k)
    ensures Levels(i, k)[0] == []
    ensures forall l :: 0 < l <= k ==> |Levels(i, k)[l]| == Pow2(l - 1)
    ensures forall j: nat :: InSomeLevel(Levels(i, k), j) <==> j < Pow2(k) && j != i
    ensures forall a, b, j :: 0 <= a < b <= k && j in Levels(i, k)[a] ==> j !in Levels(i, k)[b]
    ensures forall l: nat, j: nat :: l <= k ==> (j in Levels(i, k)[l] <==> i in Levels(j, k)[l])
  {
    forall j: nat ensures InSomeLevel(Levels(i, k), j) <==> j < Pow2(k) && j != i {
      if j < Pow2(k) && j != i {
        var l := LevelOf(i, j, k);
        LevelMembers(i, l, j);
        assert Levels(i, k)[l] == Level(i, l);
      }
      if InSomeLevel(Levels(i, k), j) {
        var l :| 0 < l <= k && j in Levels(i, k)[l];
        LevelMembers(i, l, j);
        LevelInRange(i, j, l, k);
      }
    }
    forall a, b, j | 0 <= a < b <= k && j in Levels(i, k)[a] ensures j !in Levels(i, k)[b] {
      LevelMembers(i, a, j);
      LevelMembers(i, b, j);
      if AtLevel(i, j, b) { LevelsDisjoint(i, j, a, b); }
    }
    forall l: nat, j: nat | l <= k ensures j in Levels(i, k)[l] <==> i in Levels(j, k)[l] {
      LevelsSymmetric(i, j, l);
    }
  }

  // ----- normalize -----

  lemma HalfOfU32()
    ensures Pow2(31) == 0x8000_0000
  {
    assert Pow2(8) == 256;
    Pow2Add(8, 8);
    Pow2Add(16, 8);
    assert Pow2(7) == 128;
    Pow2Add(24, 7);
  }

  /** The closest power of two not below `n`; the 32-bit power overflows beyond `2^31`. */
  method Normalize(n: nat) returns (p: nat, ghost power: nat)
    requires n <= 0x8000_0000
    ensures p == Pow2(power) && n <= p <= 0x8000_0000
    ensures n > 1 ==> p < 2 * n
    ensures n <= 1 ==> p == 1
  {
    var e := 0;
    HalfOfU32();
    while true
      invariant e <= 31
      invariant e > 0 ==> Pow2(e - 1) < n
      decreases 32 - e
    {
      p := Pow2(e);
      if n <= p {
        Pow2Monotone(e, 31);
        return p, e;
      }
      e := e + 1;
    }
  }

  // ----- BinomialPeerPartitions -----

  /** The order of the peers, and the real peers at every level by the two priorities. */
  datatype Partitions = Partitions(peers: seq<PeerId>, vp: seq<seq<nat>>, cvp: seq<seq<nat>>)

  function Position<T(==)>(s: seq<T>, x: T): (r: Option<nat>)
    ensures r.Some? <==> x in s
    ensures r.Some? ==> r.value < |s| && s[r.value] == x && x !in s[..r.value]
  {
    if s == [] then None
    else if s[0] == x then Some(0)
    else
      var rest := Position(s[1..], x);
      if rest.None? then None else
        assert s[..rest.value + 1] == [s[0]] + s[1..][..rest.value];
        Some(rest.value + 1)
  }

  lemma PositionCons<T>(x: T, y: T, s: seq<T>)
    ensures Position([y] + s, x) == if x == y then Some(0)
                                    else if Position(s, x).None? then None else Some(Position(s, x).value + 1)
  {
    var all := [y] + s;
    assert all[0] == y && all[1..] == s;
  }

  /** Inserting moves exactly the elements of no smaller key. */
  lemma {:induction false} InsertMoves<T>(key: T -> int, h: T, s: seq<T>, x: T)
    requires Sorted(key, s) && x in s && x != h
    ensures Position(Insert(key, h, s), x) == Some(Position(s, x).value + if key(h) <= key(x) then 1 else 0)
  {
    if key(h) <= key(s[0]) {
      HeadLeast(key, s, Position(s, x).value);
      PositionCons(x, h, s);
    } else {
      var rest := s[1..];
      assert s == [s[0]] + rest && Insert(key, h, s) == [s[0]] + Insert(key, h, rest);
      PositionCons(x, s[0], Insert(key, h, rest));
      PositionCons(x, s[0], rest);
      if s[0] != x {
        assert x in rest;
        InsertMoves(key, h, rest, x);
      }
    }
  }

  /** The inserted element comes right after the elements of smaller key. */
  lemma {:induction false} InsertPlaces<T>(key: T -> int, h: T, s: seq<T>)
    requires Sorted(key, s)
    ensures Position(Insert(key, h, s), h) == Some(CountBelow(key, key(h), s))
  {
    if s == [] || key(h) <= key(s[0]) {
      PositionCons(h, h, s);
      NoneBelow(key, key(h), s);
    } else {
      var rest := s[1..];
      assert Insert(key, h, s) == [s[0]] + Insert(key, h, rest);
      PositionCons(h, s[0], Insert(key, h, rest));
      InsertPlaces(key, h, rest);
      assert CountBelow(key, key(h), s) == 1 + CountBelow(key, key(h), rest);
    }
  }

  /** Where a stable sort puts an element, whatever the keys. */
  lemma {:induction false} SortPlaces<T>(key: T -> int, s: seq<T>, x: T)
    requires x in s
    ensures Position(SortByKey(key, s), x) == Some(Place(key, x, s))
  {
    var rest := SortByKey(key, s[1..]);
    SortCorrect(key, s[1..]);
    if s[0] == x {
      InsertPlaces(key, x, rest);
      CountBelowSort(key, key(x), s[1..]);
    } else {
      SortPlaces(key, s[1..], x);
      SameElements(rest, s[1..]);
      InsertMoves(key, s[0], rest, x);
    }
  }

  function Filter<T(!new)>(keep: T -> bool, s: seq<T>): (r: seq<T>)
    ensures forall x :: x in r <==> x in s && keep(x)
  {
    if s == [] then []
    else (if keep(s[0]) then [s[0]] else []) + Filter(keep, s[1..])
  }

  lemma {:induction false} FilterDistinct<T(!new)>(keep: T -> bool, s: seq<T>)
    requires Distinct(s)
    ensures Distinct(Filter(keep, s))
  {
    if s != [] {
      FilterDistinct(keep, s[1..]);
      assert s[0] !in s[1..];
    }
  }

  /** The rank the host has in the verification order of peer `pix` at level `l`. */
  function HostRank(gen: (nat, nat) -> int, host: nat, l: nat, pix: nat): Option<nat> {
    Position(SortByKey(VpKey(gen, pix), Level(pix, l)), host)
  }

  function CvpKey(gen: (nat, nat) -> int, host: nat, l: nat): nat -> int {
    (pix: nat) => var r := HostRank(gen, host, l, pix); if r.Some? then r.value else 0
  }

  function VpKey(gen: (nat, nat) -> int, host: nat): nat -> int {
    (pix: nat) => gen(host, pix)
  }

  /** A peer at a level of the host has the host at the same level, so the rank always exists. */
  lemma HostRankExists(gen: (nat, nat) -> int, host: nat, l: nat, pix: nat)
    requires pix in Level(host, l)
    ensures HostRank(gen, host, l, pix).Some?
  {
    LevelsSymmetric(host, pix, l);
    SortCorrect(VpKey(gen, pix), Level(pix, l));
    SameElements(SortByKey(VpKey(gen, pix), Level(pix, l)), Level(pix, l));
  }

  function OrderVp(gen: (nat, nat) -> int, host: nat, level: seq<nat>): seq<nat> {
    SortByKey(VpKey(gen, host), level)
  }

  function OrderCvp(gen: (nat, nat) -> int, host: nat, l: nat, level: seq<nat>): seq<nat> {
    SortByKey(CvpKey(gen, host, l), level)
  }

  function OrderAllCvp(gen: (nat, nat) -> int, host: nat, partitions: seq<seq<nat>>): (r: seq<seq<nat>>)
    ensures |r| == |partitions|
  {
    if partitions == [] then []
    else
      var l := |partitions| - 1;
      OrderAllCvp(gen, host, partitions[..l]) + [OrderCvp(gen, host, l, partitions[l])]
  }

  lemma {:induction false} OrderAllCvpAt(gen: (nat, nat) -> int, host: nat, partitions: seq<seq<nat>>, l: nat)
    requires l < |partitions|
    ensures OrderAllCvp(gen, host, partitions)[l] == OrderCvp(gen, host, l, partitions[l])
  {
    if l < |partitions| - 1 { OrderAllCvpAt(gen, host, partitions[..|partitions| - 1], l); }
  }

  method OrderedByVp(gen: (nat, nat) -> int, partitions: seq<seq<nat>>, host: nat) returns (r: seq<seq<nat>>)
    ensures |r| == |partitions|
    ensures forall l :: 0 <= l < |r| ==> r[l] == OrderVp(gen, host, partitions[l])
    ensures forall l :: 0 <= l < |r| ==> PermutesSorted(VpKey(gen, host), partitions[l], r[l])
    ensures forall l, i, j :: 0 <= l < |r| && 0 <= i < j < |r[l]| ==> gen(host, r[l][i]) <= gen(host, r[l][j])
  {
    r := [];
    for l := 0 to |partitions|
      invariant |r| == l
      invariant forall t :: 0 <= t < l ==> r[t] == OrderVp(gen, host, partitions[t])
    {
      r := r + [OrderVp(gen, host, partitions[l])];
    }
    forall l | 0 <= l < |r| ensures PermutesSorted(VpKey(gen, host), partitions[l], r[l]) {
      SortCorrect(VpKey(gen, host), partitions[l]);
    }
    forall l, i, j | 0 <= l < |r| && 0 <= i < j < |r[l]| ensures gen(host, r[l][i]) <= gen(host, r[l][j]) {
      SortCorrect(VpKey(gen, host), partitions[l]);
      SortedPairs(VpKey(gen, host), r[l]);
    }
  }

  /** How many of the indices `pix` ranks lower than the host, or equal and earlier in the list. */
  function RankedBefore(gen: (nat, nat) -> int, pix: nat, host: nat, level: seq<nat>): nat {
    if level == [] then 0
    else if level[0] == host then RankedLower(gen, pix, host, level[1..])
    else (if gen(pix, level[0]) <= gen(pix, host) then 1 else 0) + RankedBefore(gen, pix, host, level[1..])
  }

  function RankedLower(gen: (nat, nat) -> int, pix: nat, host: nat, level: seq<nat>): nat {
    if level == [] then 0 else (if gen(pix, level[0]) < gen(pix, host) then 1 else 0) + RankedLower(gen, pix, host, level[1..])
  }

  lemma {:induction false} LowerIsBelow(gen: (nat, nat) -> int, pix: nat, host: nat, level: seq<nat>, key: nat -> int)
    requires forall j: nat :: key(j) == gen(pix, j)
    ensures CountBelow(key, key(host), level) == RankedLower(gen, pix, host, level)
  {
    if level != [] { LowerIsBelow(gen, pix, host, level[1..], key); }
  }

  lemma {:induction false} BeforeIsPlace(gen: (nat, nat) -> int, pix: nat, host: nat, level: seq<nat>, key: nat -> int)
    requires forall j: nat :: key(j) == gen(pix, j)
    ensures Place(key, host, level) == RankedBefore(gen, pix, host, level)
  {
    if level != [] {
      BeforeIsPlace(gen, pix, host, level[1..], key);
      LowerIsBelow(gen, pix, host, level[1..], key);
    }
  }

  /** The rank looked up is the number of indices at the peer's level that the peer prefers to the host. */
  lemma RankCounts(gen: (nat, nat) -> int, host: nat, l: nat, pix: nat)
    requires pix in Level(host, l)
    ensures HostRank(gen, host, l, pix) == Some(RankedBefore(gen, pix, host, Level(pix, l)))
  {
    LevelsSymmetric(host, pix, l);
    SortPlaces(VpKey(gen, pix), Level(pix, l), host);
    BeforeIsPlace(gen, pix, host, Level(pix, l), VpKey(gen, pix));
  }

  ghost predicate WithinLevel(level: seq<nat>, host: nat, l: nat) {
    forall j: nat :: j in level ==> j in Level(host, l)
  }

  /** The host has a rank with every peer listed. */
  ghost predicate Ranked(gen: (nat, nat) -> int, host: nat, l: nat, level: seq<nat>) {
    forall j: nat :: j in level ==> HostRank(gen, host, l, j).Some?
  }

  lemma WithinIsRanked(gen: (nat, nat) -> int, host: nat, l: nat, level: seq<nat>)
    requires WithinLevel(level, host, l)
    ensures Ranked(gen, host, l, level)
  {
    forall j: nat | j in level ensures HostRank(gen, host, l, j).Some? {
      HostRankExists(gen, host, l, j);
    }
  }

  lemma AllRanked(gen: (nat, nat) -> int, partitions: seq<seq<nat>>, host: nat)
    requires forall l: nat :: l < |partitions| ==> WithinLevel(partitions[l], host, l)
    ensures forall l: nat :: l < |partitions| ==> Ranked(gen, host, l, partitions[l])
  {
    forall l: nat | l < |partitions| ensures Ranked(gen, host, l, partitions[l]) {
      WithinIsRanked(gen, host, l, partitions[l]);
    }
  }

  lemma OrderAllCvpStep(gen: (nat, nat) -> int, host: nat, partitions: seq<seq<nat>>, l: nat)
    requires l < |partitions|
    ensures OrderAllCvp(gen, host, partitions[..l + 1])
            == OrderAllCvp(gen, host, partitions[..l]) + [OrderCvp(gen, host, l, partitions[l])]
  {
    assert partitions[..l + 1][..l] == partitions[..l];
  }

  lemma CvpAscends(gen: (nat, nat) -> int, host: nat, l: nat, level: seq<nat>, i: nat, j: nat)
    requires WithinLevel(level, host, l) && i < j < |OrderCvp(gen, host, l, level)|
    ensures
      var r := OrderCvp(gen, host, l, level);
      RankedBefore(gen, r[i], host, Level(r[i], l)) <= RankedBefore(gen, r[j], host, Level(r[j], l))
  {
    var r := OrderCvp(gen, host, l, level);
    SortCorrect(CvpKey(gen, host, l), level);
    SortedPairs(CvpKey(gen, host, l), r);
    SameElements(level, r);
    assert r[i] in r && r[j] in r;
    RankCounts(gen, host, l, r[i]);
    RankCounts(gen, host, l, r[j]);
  }

  /** The position looked up for every peer is always found. */
  method OrderedByCvp(gen: (nat, nat) -> int, partitions: seq<seq<nat>>, host: nat) returns (r: seq<seq<nat>>)
    requires forall l: nat :: l < |partitions| ==> WithinLevel(partitions[l], host, l)
    ensures r == OrderAllCvp(gen, host, partitions)
    ensures forall l: nat :: l < |partitions| ==> Ranked(gen, host, l, partitions[l])
    ensures forall l: nat :: l < |r| ==> multiset(r[l]) == multiset(partitions[l])
    ensures forall l: nat, i: nat, j: nat :: l < |r| && i < j < |r[l]| ==>
      RankedBefore(gen, r[l][i], host, Level(r[l][i], l)) <= RankedBefore(gen, r[l][j], host, Level(r[l][j], l))
  {
    r := [];
    for l := 0 to |partitions|
      invariant r == OrderAllCvp(gen, host, partitions[..l])
    {
      OrderAllCvpStep(gen, host, partitions, l);
      r := r + [OrderCvp(gen, host, l, partitions[l])];
    }
    assert partitions[..|partitions|] == partitions;
    AllRanked(gen, partitions, host);
    forall l: nat | l < |r| ensures multiset(r[l]) == multiset(partitions[l]) {
      OrderAllCvpAt(gen, host, partitions, l);
      SortCorrect(CvpKey(gen, host, l), partitions[l]);
    }
    forall l: nat, i: nat, j: nat | l < |r| && i < j < |r[l]|
      ensures RankedBefore(gen, r[l][i], host, Level(r[l][i], l)) <= RankedBefore(gen, r[l][j], host, Level(r[l][j], l))
    {
      OrderAllCvpAt(gen, host, partitions, l);
      CvpAscends(gen, host, l, partitions[l], i, j);
    }
  }

  /** `level` lists, each once, exactly the real peers at level `l` of the host. */
  ghost predicate HoldsLevel(level: seq<nat>, members: set<PeerId>, peers: seq<PeerId>, host: nat, l: nat) {
    && Distinct(level)
    && forall j: nat :: j in level <==> j < |peers| && peers[j] in members && AtLevel(host, j, l)
  }

  /** What the aggregation relies on. */
  ghost predicate Partitioned(pp: Partitions, members: set<PeerId>, host: nat, k: nat) {
    && |pp.peers| == Pow2(k) && host < |pp.peers|
    && |pp.vp| == |pp.cvp| == (if k == 0 then 2 else k + 1)
    && AllHold(pp.vp, members, pp.peers, host)
    && AllHold(pp.cvp, members, pp.peers, host)
  }

  lemma LevelDistinct(i: nat, l: nat)
    ensures Distinct(Level(i, l))
  {
  }

  lemma SortHoldsLevel(key: nat -> int, level: seq<nat>, members: set<PeerId>, peers: seq<PeerId>, host: nat, l: nat)
    requires HoldsLevel(level, members, peers, host, l)
    ensures HoldsLevel(SortByKey(key, level), members, peers, host, l)
  {
    SortCorrect(key, level);
    PermutationDistinct(level, SortByKey(key, level));
    SameElements(level, SortByKey(key, level));
  }

  lemma ClearedHoldsLevel(members: set<PeerId>, peers: seq<PeerId>, host: nat, l: nat, k: nat, keep: nat -> bool)
    requires |peers| == Pow2(k) && host < |peers| && l <= k
    requires forall j: nat :: j < |peers| ==> (keep(j) <==> peers[j] in members)
    ensures HoldsLevel(Filter(keep, Level(host, l)), members, peers, host, l)
  {
    var level := Filter(keep, Level(host, l));
    LevelDistinct(host, l);
    FilterDistinct(keep, Level(host, l));
    forall j: nat ensures j in level <==> j < |peers| && peers[j] in members && AtLevel(host, j, l) {
      LevelMembers(host, l, j);
      if AtLevel(host, j, l) { LevelInRange(host, j, l, k); }
    }
  }

  /** Fewer than half of the indices are fake, so the top level always holds a real peer. */
  lemma TopLevelInhabited(peers: seq<PeerId>, members: set<PeerId>, fake: set<PeerId>, host: nat, k: nat, level: seq<nat>)
    requires k > 0 && |peers| == Pow2(k) && host < |peers| && Distinct(peers)
    requires forall j: nat :: j < |peers| ==> peers[j] in members || peers[j] in fake
    requires |fake| < Pow2(k - 1)
    requires HoldsLevel(level, members, peers, host, k)
    ensures level != []
  {
    if level == [] {
      var top := Level(host, k);
      var ids := seq(|top|, x requires 0 <= x < |top| => if top[x] < |peers| then peers[top[x]] else peers[0]);
      forall x | 0 <= x < |top| ensures top[x] < |peers| && ids[x] in fake {
        LevelMembers(host, k, top[x]);
        LevelInRange(host, top[x], k, k);
        assert top[x] !in level;
      }
      LevelDistinct(host, k);
      assert Distinct(ids);
      DistinctSize(ids);
      Subset(Elements(ids), fake);
      assert false;
    }
  }

  ghost predicate AllHold(levels: seq<seq<nat>>, members: set<PeerId>, peers: seq<PeerId>, host: nat) {
    forall l: nat :: l < |levels| ==> HoldsLevel(levels[l], members, peers, host, l)
  }

  lemma ClearedLevels(members: set<PeerId>, peers: seq<PeerId>, host: nat, k: nat, keep: nat -> bool, cleared: seq<seq<nat>>)
    requires |peers| == Pow2(k) && host < |peers|
    requires forall j: nat :: j < |peers| ==> (keep(j) <==> peers[j] in members)
    requires |cleared| == if k == 0 then 2 else k + 1
    requires forall l: nat :: l < |cleared| ==> cleared[l] == Filter(keep, if k == 0 then [] else Level(host, l))
    ensures AllHold(cleared, members, peers, host)
    ensures forall l: nat :: l < |cleared| ==> WithinLevel(cleared[l], host, l)
  {
    forall l: nat | l < |cleared| ensures HoldsLevel(cleared[l], members, peers, host, l) {
      if k > 0 {
        ClearedHoldsLevel(members, peers, host, l, k, keep);
      }
    }
    forall l: nat | l < |cleared| ensures WithinLevel(cleared[l], host, l) {
      forall j: nat | j in cleared[l] ensures j in Level(host, l) {
        assert HoldsLevel(cleared[l], members, peers, host, l);
        LevelMembers(host, l, j);
      }
    }
  }

  /** What ordering the cleared levels both ways keeps and adds. */
  lemma OrderedLevels(gen: (nat, nat) -> int, members: set<PeerId>, peers: seq<PeerId>, host: nat,
                      cleared: seq<seq<nat>>, vp: seq<seq<nat>>, cvp: seq<seq<nat>>)
    requires AllHold(cleared, members, peers, host)
    requires |vp| == |cleared| && forall l: nat :: l < |vp| ==> vp[l] == OrderVp(gen, host, cleared[l])
    requires cvp == OrderAllCvp(gen, host, cleared)
    requires forall l: nat :: l < |cleared| ==> Ranked(gen, host, l, cleared[l])
    ensures AllHold(vp, members, peers, host) && AllHold(cvp, members, peers, host)
    ensures ByPriority(gen, host, vp, cvp)
  {
    forall l: nat | l < |cleared|
      ensures HoldsLevel(vp[l], members, peers, host, l) && Sorted(VpKey(gen, host), vp[l])
    {
      SortHoldsLevel(VpKey(gen, host), cleared[l], members, peers, host, l);
      SortCorrect(VpKey(gen, host), cleared[l]);
    }
    forall l: nat | l < |cleared|
      ensures HoldsLevel(cvp[l], members, peers, host, l)
      ensures Sorted(CvpKey(gen, host, l), cvp[l]) && Ranked(gen, host, l, cvp[l])
    {
      OrderAllCvpAt(gen, host, cleared, l);
      SortHoldsLevel(CvpKey(gen, host, l), cleared[l], members, peers, host, l);
      SortCorrect(CvpKey(gen, host, l), cleared[l]);
      SameElements(cleared[l], cvp[l]);
    }
  }

  /** Levels ordered by the host's priorities, and by the host's rank with each peer. */
  ghost predicate ByPriority(gen: (nat, nat) -> int, host: nat, vp: seq<seq<nat>>, cvp: seq<seq<nat>>) {
    && (forall l: nat :: l < |vp| ==> Sorted(VpKey(gen, host), vp[l]))
    && (forall l: nat :: l < |cvp| ==> Sorted(CvpKey(gen, host, l), cvp[l]) && Ranked(gen, host, l, cvp[l]))
  }

  lemma SortedPeers(peers: seq<PeerId>, fakes: seq<PeerId>, priority: PeerId -> int, sorted: seq<PeerId>)
    requires Distinct(peers) && Distinct(fakes) && forall x :: x in fakes ==> x !in peers
    requires sorted == SortByKey(priority, peers + fakes)
    ensures Distinct(sorted) && |sorted| == |peers| + |fakes|
    ensures forall x :: x in sorted <==> x in peers || x in fakes
  {
    var all := peers + fakes;
    forall i, j | 0 <= i < j < |all| ensures all[i] != all[j] {
      if i < |peers| <= j { assert all[j] in fakes && all[i] in peers; }
    }
    SortCorrect(priority, all);
    PermutationDistinct(all, sorted);
    SameElements(all, sorted);
  }

  /** Random identities are new. */
  ghost predicate Fresh(random: nat -> PeerId, peers: seq<PeerId>) {
    (forall i: nat, j: nat :: i < j ==> random(i) != random(j)) && forall i: nat :: random(i) !in peers
  }

  /** The first `n` random identities drawn. */
  function Drawn(random: nat -> PeerId, n: nat): seq<PeerId> {
    seq(n, (i: nat) => random(i))
  }

  /** The real peers padded to a power of two with fake ones, in priority order. */
  method OrderPeers(peers: seq<PeerId>, random: nat -> PeerId, priority: PeerId -> int)
    returns (sorted: seq<PeerId>, fakes: seq<PeerId>, ghost k: nat)
    requires |peers| <= 0x8000_0000
    requires Distinct(peers) && Fresh(random, peers)
    ensures |sorted| == Pow2(k) == |peers| + |fakes| && (|peers| > 1 ==> Pow2(k) < 2 * |peers|)
    ensures Distinct(sorted) && Distinct(fakes)
    ensures forall x :: x in sorted <==> x in peers || x in fakes
    ensures forall x :: x in fakes ==> x !in peers
    ensures fakes == Drawn(random, |fakes|) && sorted == SortByKey(priority, peers + fakes)
    ensures |peers| == 1 ==> k == 0
  {
    var normalized;
    normalized, k := Normalize(|peers|);
    fakes := Drawn(random, normalized - |peers|);
    sorted := SortByKey(priority, peers + fakes);
    SortedPeers(peers, fakes, priority, sorted);
  }

  /** Which indices hold real peers. */
  function IsReal(sorted: seq<PeerId>, fakes: seq<PeerId>): nat -> bool {
    (j: nat) => if j < |sorted| then sorted[j] !in fakes else false
  }

  method ClearFakes(partitions: seq<seq<nat>>, sorted: seq<PeerId>, fakes: seq<PeerId>) returns (cleared: seq<seq<nat>>)
    ensures |cleared| == |partitions|
    ensures forall l: nat :: l < |cleared| ==> cleared[l] == Filter(IsReal(sorted, fakes), partitions[l])
  {
    cleared := [];
    for l := 0 to |partitions|
      invariant |cleared| == l
      invariant forall t :: 0 <= t < l ==> cleared[t] == Filter(IsReal(sorted, fakes), partitions[t])
    {
      cleared := cleared + [Filter(IsReal(sorted, fakes), partitions[l])];
    }
  }

  /** The levels of the host without the fake peers, by both priorities. */
  method OrderLevels(sorted: seq<PeerId>, fakes: seq<PeerId>, ghost members: set<PeerId>, hostIx: nat,
                     gen: (nat, nat) -> int, ghost k: nat) returns (vp: seq<seq<nat>>, cvp: seq<seq<nat>>)
    requires |sorted| == Pow2(k) && hostIx < |sorted|
    requires forall j: nat :: j < |sorted| ==> (sorted[j] in fakes <==> sorted[j] !in members)
    ensures |vp| == |cvp| == if k == 0 then 2 else k + 1
    ensures AllHold(vp, members, sorted, hostIx) && AllHold(cvp, members, sorted, hostIx)
    ensures ByPriority(gen, hostIx, vp, cvp)
  {
    var partitions := BinPartition(hostIx, |sorted|, k);
    var cleared := ClearFakes(partitions, sorted, fakes);
    ClearedLevels(members, sorted, hostIx, k, IsReal(sorted, fakes), cleared);
    vp := OrderedByVp(gen, cleared, hostIx);
    cvp := OrderedByCvp(gen, cleared, hostIx);
    OrderedLevels(gen, members, sorted, hostIx, cleared, vp, cvp);
  }

  /** Building the partitions of a host among `peers`, padded with random identities. */
  method NewPartitions(host: PeerId, peers: seq<PeerId>, random: nat -> PeerId, priority: PeerId -> int,
                       gen: (nat, nat) -> int)
    returns (pp: Partitions, hostIx: nat, ghost k: nat)
    requires host in peers && |peers| <= 0x8000_0000
    requires Distinct(peers) && Fresh(random, peers)
    ensures Partitioned(pp, Elements(peers), hostIx, k) && Distinct(pp.peers)
    ensures pp.peers[hostIx] == host && (forall x :: x in peers ==> x in pp.peers)
    ensures |peers| <= Pow2(k) && (|peers| > 1 ==> Pow2(k) < 2 * |peers| && pp.vp[k] != [])
    ensures pp.peers == SortByKey(priority, peers + Drawn(random, Pow2(k) - |peers|)) && (|peers| == 1 ==> k == 0)
    ensures ByPriority(gen, hostIx, pp.vp, pp.cvp)
  {
    var sorted, fakes;
    sorted, fakes, k := OrderPeers(peers, random, priority);
    assert host in sorted;
    hostIx := Position(sorted, host).value;
    forall j: nat | j < |sorted| ensures sorted[j] in fakes <==> sorted[j] !in Elements(peers) {
      assert sorted[j] in sorted;
    }
    var vp, cvp := OrderLevels(sorted, fakes, Elements(peers), hostIx, gen, k);
    pp := Partitions(sorted, vp, cvp);
    if |peers| > 1 {
      DistinctSize(fakes);
      TopLevelInhabited(sorted, Elements(peers), Elements(fakes), hostIx, k, vp[k]);
    }
  }

  // ----- agreement between hosts -----

  /** The index of a real peer: the real peers sorted before it and the fakes of smaller priority. */
  lemma IndexOfPeer(priority: PeerId -> int, peers: seq<PeerId>, fakes: seq<PeerId>, x: PeerId)
    requires x in peers
    ensures Position(SortByKey(priority, peers + fakes), x) ==
              Some(Place(priority, x, peers) + CountBelow(priority, priority(x), fakes))
  {
    PlaceJoin(priority, x, peers, fakes);
    assert x in peers + fakes;
    SortPlaces(priority, peers + fakes, x);
  }

  /** Both orders hold every peer of `peers` at the same index. */
  predicate SameIndices(a: seq<PeerId>, b: seq<PeerId>, peers: seq<PeerId>) {
    forall x :: x in peers ==> Position(a, x) == Position(b, x)
  }

  /** Every real peer has equally many fakes of smaller priority on both sides. */
  predicate FakesBalance(priority: PeerId -> int, f1: seq<PeerId>, f2: seq<PeerId>, peers: seq<PeerId>) {
    forall x :: x in peers ==> CountBelow(priority, priority(x), f1) == CountBelow(priority, priority(x), f2)
  }

  /** The real peers are given in the same order, or their priorities tell them apart. */
  predicate SamePeers(priority: PeerId -> int, peers1: seq<PeerId>, peers2: seq<PeerId>) {
    multiset(peers1) == multiset(peers2) && (peers1 == peers2 || InjectiveOn(priority, SortByKey(priority, peers1)))
  }

  lemma SamePlace(priority: PeerId -> int, peers1: seq<PeerId>, peers2: seq<PeerId>, x: PeerId)
    requires SamePeers(priority, peers1, peers2) && x in peers1
    ensures x in peers2 && Place(priority, x, peers1) == Place(priority, x, peers2)
  {
    SameElements(peers1, peers2);
    if peers1 != peers2 {
      SortCorrect(priority, peers1);
      SortCorrect(priority, peers2);
      SortCanonical(priority, SortByKey(priority, peers1), SortByKey(priority, peers2));
      SortPlaces(priority, peers1, x);
      SortPlaces(priority, peers2, x);
    }
  }

  /** Two hosts with the same real peers index all of them alike exactly when their fakes balance. */
  lemma IndicesAgreeIff(priority: PeerId -> int, peers1: seq<PeerId>, f1: seq<PeerId>, peers2: seq<PeerId>, f2: seq<PeerId>)
    requires SamePeers(priority, peers1, peers2)
    ensures SameIndices(SortByKey(priority, peers1 + f1), SortByKey(priority, peers2 + f2), peers1) <==>
            FakesBalance(priority, f1, f2, peers1)
  {
    var a, b := SortByKey(priority, peers1 + f1), SortByKey(priority, peers2 + f2);
    forall x | x in peers1
      ensures Position(a, x) == Position(b, x) <==> CountBelow(priority, priority(x), f1) == CountBelow(priority, priority(x), f2)
    {
      SamePlace(priority, peers1, peers2, x);
      IndexOfPeer(priority, peers1, f1, x);
      IndexOfPeer(priority, peers2, f2, x);
    }
  }

  lemma PositionOf(s: seq<PeerId>, i: nat)
    requires i < |s| && Distinct(s)
    ensures Position(s, s[i]) == Some(i)
  {
    assert s[i] in s;
  }

  /** At which level a host lists another one, from the indices. */
  lemma ListedAt(pp: Partitions, peers: seq<PeerId>, k: nat, i: nat, x: PeerId, l: nat)
    requires Partitioned(pp, Elements(peers), i, k) && x in peers && x in pp.peers && l < |pp.vp|
    ensures Position(pp.peers, x).value in pp.vp[l] <==> AtLevel(i, Position(pp.peers, x).value, l)
    ensures Position(pp.peers, x).value in pp.cvp[l] <==> AtLevel(i, Position(pp.peers, x).value, l)
  {
    assert HoldsLevel(pp.vp[l], Elements(peers), pp.peers, i, l) && HoldsLevel(pp.cvp[l], Elements(peers), pp.peers, i, l);
  }

  /** Hosts that index the real peers alike list each other at the same level. */
  lemma CoherentAcrossHosts(p1: Partitions, p2: Partitions, peers: seq<PeerId>, k: nat, i: nat, j: nat, l: nat)
    requires Partitioned(p1, Elements(peers), i, k) && Partitioned(p2, Elements(peers), j, k) && l < |p1.cvp|
    requires Distinct(p1.peers) && Distinct(p2.peers) && p1.peers[i] in peers && p2.peers[j] in peers
    requires SameIndices(p1.peers, p2.peers, peers)
    ensures p1.peers[j] == p2.peers[j] && p2.peers[i] == p1.peers[i]
    ensures j in p1.cvp[l] <==> i in p2.vp[l]
  {
    PositionOf(p1.peers, i);
    PositionOf(p2.peers, j);
    ListedAt(p1, peers, k, i, p2.peers[j], l);
    ListedAt(p2, peers, k, j, p1.peers[i], l);
  }

  lemma NextPower(n: nat, a: nat, b: nat)
    requires a < b && n <= Pow2(a)
    ensures Pow2(b) >= 2 * n
  {
    Pow2Monotone(a + 1, b);
  }

  lemma SamePower(n: nat, a: nat, b: nat)
    requires n <= Pow2(a) < 2 * n && n <= Pow2(b) < 2 * n
    ensures a == b
  {
    if a < b { NextPower(n, a, b); }
    if b < a { NextPower(n, b, a); }
  }

  /** The two hosts see each other at the same level of both partitions. */
  ghost predicate Mutual(p1: Partitions, i: nat, p2: Partitions, j: nat) {
    |p1.cvp| == |p2.vp| && forall l: nat :: l < |p1.cvp| ==> (j in p1.cvp[l] <==> i in p2.vp[l])
  }

  lemma MutualFromIndices(p1: Partitions, p2: Partitions, peers: seq<PeerId>, k: nat, i: nat, j: nat)
    requires Partitioned(p1, Elements(peers), i, k) && Partitioned(p2, Elements(peers), j, k)
    requires Distinct(p1.peers) && Distinct(p2.peers) && p1.peers[i] in peers && p2.peers[j] in peers
    requires SameIndices(p1.peers, p2.peers, peers)
    ensures Mutual(p1, i, p2, j)
  {
    forall l: nat | l < |p1.cvp| ensures j in p1.cvp[l] <==> i in p2.vp[l] {
      CoherentAcrossHosts(p1, p2, peers, k, i, j, l);
    }
  }

  /** What two hosts build from the same peers: they agree exactly when the fakes they drew balance, and then
      list each other at the same level. */
  method BuildTwo(host1: PeerId, host2: PeerId, peers1: seq<PeerId>, peers2: seq<PeerId>, random1: nat -> PeerId,
                  random2: nat -> PeerId, priority: PeerId -> int, gen: (nat, nat) -> int)
    returns (p1: Partitions, i: nat, p2: Partitions, j: nat)
    requires host1 in peers1 && host2 in peers2 && |peers1| <= 0x8000_0000 && Distinct(peers1) && Distinct(peers2)
    requires Fresh(random1, peers1) && Fresh(random2, peers2) && SamePeers(priority, peers1, peers2)
    ensures |p1.peers| == |p2.peers| >= |peers1| && i < |p1.peers| && j < |p1.peers|
    ensures p1.peers[i] == host1 && p2.peers[j] == host2
    ensures
      var fakes := |p1.peers| - |peers1|;
      SameIndices(p1.peers, p2.peers, peers1) <==> FakesBalance(priority, Drawn(random1, fakes), Drawn(random2, fakes), peers1)
    ensures SameIndices(p1.peers, p2.peers, peers1) ==> Mutual(p1, i, p2, j)
  {
    PermutedPeers(peers1, peers2);
    ghost var k1, k2;
    p1, i, k1 := NewPartitions(host1, peers1, random1, priority, gen);
    p2, j, k2 := NewPartitions(host2, peers2, random2, priority, gen);
    if |peers1| > 1 { SamePower(|peers1|, k1, k2); }
    var fakes := |p1.peers| - |peers1|;
    BuiltAlike(p1, i, p2, j, k1, priority, peers1, Drawn(random1, fakes), peers2, Drawn(random2, fakes));
  }

  lemma PermutedPeers(peers1: seq<PeerId>, peers2: seq<PeerId>)
    requires multiset(peers1) == multiset(peers2)
    ensures |peers1| == |peers2| && Elements(peers1) == Elements(peers2)
  {
    SameElements(peers1, peers2);
  }

  lemma BuiltAlike(p1: Partitions, i: nat, p2: Partitions, j: nat, k: nat, priority: PeerId -> int, peers1: seq<PeerId>,
                   f1: seq<PeerId>, peers2: seq<PeerId>, f2: seq<PeerId>)
    requires Partitioned(p1, Elements(peers1), i, k) && Partitioned(p2, Elements(peers1), j, k) && SamePeers(priority, peers1, peers2)
    requires p1.peers == SortByKey(priority, peers1 + f1) && p2.peers == SortByKey(priority, peers2 + f2)
    requires Distinct(p1.peers) && Distinct(p2.peers) && p1.peers[i] in Elements(peers1) && p2.peers[j] in Elements(peers1)
    ensures SameIndices(p1.peers, p2.peers, peers1) <==> FakesBalance(priority, f1, f2, peers1)
    ensures SameIndices(p1.peers, p2.peers, peers1) ==> Mutual(p1, i, p2, j)
  {
    IndicesAgreeIff(priority, peers1, f1, peers2, f2);
    if SameIndices(p1.peers, p2.peers, peers1) { MutualFromIndices(p1, p2, peers1, k, i, j); }
  }

  /** Hosts that pad with different fakes may not: here the first lists the second at level 2, the second
      lists the first at level 1. */
  lemma PaddingBreaksCoherence(a: PeerId, b: PeerId, c: PeerId, fake1: PeerId, fake2: PeerId, priority: PeerId -> int,
                               p1: Partitions, p2: Partitions)
    requires priority(fake1) < priority(a) < priority(b) < priority(c) < priority(fake2)
    requires p1.peers == SortByKey(priority, [a, b, c, fake1]) && p2.peers == SortByKey(priority, [a, b, c, fake2])
    requires Partitioned(p1, {a, b, c}, 1, 2) && Partitioned(p2, {a, b, c}, 1, 2)
    ensures p1.peers[1] == a && p1.peers[2] == b && 2 in p1.cvp[2]
    ensures p2.peers[1] == b && p2.peers[0] == a && 0 in p2.vp[1] && 0 !in p2.vp[2]
  {
    FakeInFront(priority, a, b, c, fake1);
    FakeBehind(priority, a, b, c, fake2);
    LevelsOfOne();
    assert HoldsLevel(p1.cvp[2], {a, b, c}, p1.peers, 1, 2);
    assert HoldsLevel(p2.vp[1], {a, b, c}, p2.peers, 1, 1);
    assert HoldsLevel(p2.vp[2], {a, b, c}, p2.peers, 1, 2);
  }

  /** The partitions two hosts of three peers build when one draws a fake before and one after all of them. */
  method BuildApart(a: PeerId, b: PeerId, c: PeerId, random1: nat -> PeerId, random2: nat -> PeerId, priority: PeerId -> int,
                    gen: (nat, nat) -> int)
    returns (p1: Partitions, p2: Partitions)
    requires Fresh(random1, [a, b, c]) && Fresh(random2, [a, b, c])
    requires priority(random1(0)) < priority(a) < priority(b) < priority(c) < priority(random2(0))
    ensures |p1.peers| == |p2.peers| == 4 && |p1.cvp| == |p2.vp| == 3
    ensures p1.peers[1] == a && p1.peers[2] == b && 2 in p1.cvp[2]
    ensures p2.peers[1] == b && p2.peers[0] == a && 0 in p2.vp[1] && 0 !in p2.vp[2]
  {
    var i, j;
    ghost var k1, k2;
    p1, i, k1 := NewPartitions(a, [a, b, c], random1, priority, gen);
    p2, j, k2 := NewPartitions(b, [a, b, c], random2, priority, gen);
    ThreePadded(a, b, c, random1, k1);
    ThreePadded(a, b, c, random2, k2);
    FakeInFront(priority, a, b, c, random1(0));
    FakeBehind(priority, a, b, c, random2(0));
    PaddingBreaksCoherence(a, b, c, random1(0), random2(0), priority, p1, p2);
  }

  lemma ThreePadded(a: PeerId, b: PeerId, c: PeerId, random: nat -> PeerId, k: nat)
    requires 3 <= Pow2(k) < 6
    ensures k == 2 && Pow2(k) == 4
    ensures [a, b, c] + Drawn(random, Pow2(k) - 3) == [a, b, c, random(0)] && Elements([a, b, c]) == {a, b, c}
  {
    assert Pow2(2) == 4;
    SamePower(3, k, 2);
  }

  lemma LevelsOfOne()
    ensures AtLevel(1, 2, 2) && AtLevel(1, 0, 1) && !AtLevel(1, 0, 2)
  {
    assert Block(1, 1) == 0 && Block(2, 1) == 1 && Block(0, 1) == 0;
    assert Block(1, 2) == 0 && Block(2, 2) == 0;
  }

  lemma FourSorted(priority: PeerId -> int, w: PeerId, x: PeerId, y: PeerId, z: PeerId)
    requires priority(w) < priority(x) < priority(y) < priority(z)
    ensures Sorted(priority, [w, x, y, z]) && InjectiveOn(priority, [w, x, y, z])
  {
    assert [w, x, y, z][1..] == [x, y, z] && [x, y, z][1..] == [y, z];
    assert Sorted(priority, [y, z]);
    assert Sorted(priority, [x, y, z]);
  }

  lemma FakeInFront(priority: PeerId -> int, a: PeerId, b: PeerId, c: PeerId, fake: PeerId)
    requires priority(fake) < priority(a) < priority(b) < priority(c)
    ensures SortByKey(priority, [a, b, c, fake]) == [fake, a, b, c]
  {
    FourSorted(priority, fake, a, b, c);
    assert multiset([a, b, c, fake]) == multiset([fake, a, b, c]);
    SortedAs(priority, [a, b, c, fake], [fake, a, b, c]);
  }

  lemma FakeBehind(priority: PeerId -> int, a: PeerId, b: PeerId, c: PeerId, fake: PeerId)
    requires priority(a) < priority(b) < priority(c) < priority(fake)
    ensures SortByKey(priority, [a, b, c, fake]) == [a, b, c, fake]
  {
    FourSorted(priority, a, b, c, fake);
    SortedAs(priority, [a, b, c, fake], [a, b, c, fake]);
  }

  lemma SortedAs(priority: PeerId -> int, s: seq<PeerId>, r: seq<PeerId>)
    requires multiset(s) == multiset(r) && Sorted(priority, r) && InjectiveOn(priority, r)
    ensures SortByKey(priority, s) == r
  {
    SortCorrect(priority, s);
    SortCanonical(priority, r, SortByKey(priority, s));
  }
}
