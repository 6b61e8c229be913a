/** The multicast overlay: a few binary heaps over differently shuffled peers. */
module Overlay {
  import opened Prelude
  import opened Sorting
  import P = Partitioning
  import opened Multicast

  datatype EitherOrBoth = Left(l: nat) | Right(r: nat) | Both(l: nat, r: nat) {
    function Collect(): seq<nat> {
      match this
      case Left(a) => [a]
      case Right(b) => [b]
      case Both(a, b) => [a, b]
    }
  }

  datatype TreeLinks =
    | RootLinks(left: Option<nat>, right: Option<nat>)
    | NodeLinks(parent: nat, children: EitherOrBoth)
    | LeafLinks(parent: nat)

  function Get(peers: seq<nat>, i: nat): Option<nat> {
    if i < |peers| then Some(peers[i]) else None
  }

  function TryBoth(l: Option<nat>, r: Option<nat>): Option<EitherOrBoth> {
    if l.Some? && r.Some? then Some(Both(l.value, r.value))
    else if l.Some? then Some(Left(l.value))
    else if r.Some? then Some(Right(r.value))
    else None
  }

  function OptionList(x: Option<nat>): seq<nat> {
    if x.Some? then [x.value] else []
  }

  // ----- heap indexing -----

  function Parent(i: nat): nat
    requires i > 0
  {
    (i - 1) / 2
  }

  predicate IsChild(i: nat, c: nat) {
    c == 2 * i + 1 || c == 2 * i + 2
  }

  function HostAt(order: seq<nat>, host: nat): nat
    requires host in order
  {
    P.Position(order, host).value
  }

  function ParentsIn(order: seq<nat>, host: nat): set<nat>
    requires host in order
  {
    var i := HostAt(order, host);
    if i == 0 then {} else {order[Parent(i)]}
  }

  function ChildrenIn(order: seq<nat>, host: nat): seq<nat>
    requires host in order
  {
    var i := HostAt(order, host);
    OptionList(Get(order, 2 * i + 1)) + OptionList(Get(order, 2 * i + 2))
  }

  function LinkParents(links: TreeLinks): set<nat> {
    if links.RootLinks? then {} else {links.parent}
  }

  function LinkChildren(links: TreeLinks): seq<nat> {
    match links
    case RootLinks(l, r) => OptionList(l) + OptionList(r)
    case NodeLinks(_, cs) => cs.Collect()
    case LeafLinks(_) => []
  }

  /** Where the walk's indices lie in the heap. */
  lemma HeapSpot(lower: nat, upper: nat, prevLower: nat, ix: nat)
    requires upper == 2 * lower + 1 && lower <= ix < upper && (lower == prevLower == 0 || lower == 2 * prevLower + 1)
    ensures
      var parent := prevLower + (ix - lower) / 2;
      && (ix == 0 ==> parent == 0) && (ix > 0 ==> parent == Parent(ix) && parent < ix)
      && 2 * (ix - lower) + upper == 2 * ix + 1
  {
  }

  lemma ListsBoth(l: Option<nat>, r: Option<nat>)
    ensures OptionList(l) + OptionList(r) == if TryBoth(l, r).Some? then TryBoth(l, r).value.Collect() else []
  {
  }

  /** The links of a host found at heap position `ix`. */
  method LinksAt(peers: seq<nat>, ghost host: nat, ix: nat, parentIx: nat, leftIx: nat) returns (links: TreeLinks)
    requires host in peers && HostAt(peers, host) == ix && leftIx == 2 * ix + 1
    requires (ix == 0 ==> parentIx == 0) && (ix > 0 ==> parentIx == Parent(ix))
    ensures links.RootLinks? <==> ix == 0
    ensures LinkParents(links) == ParentsIn(peers, host) && LinkChildren(links) == ChildrenIn(peers, host)
  {
    ListsBoth(Get(peers, leftIx), Get(peers, leftIx + 1));
    if parentIx != ix {
      var children := TryBoth(Get(peers, leftIx), Get(peers, leftIx + 1));
      if children.Some? {
        links := NodeLinks(peers[parentIx], children.value);
      } else {
        links := LeafLinks(peers[parentIx]);
      }
    } else {
      links := RootLinks(Get(peers, 1), Get(peers, 2));
    }
  }

  lemma FoundAt(peers: seq<nat>, host: nat, ix: nat)
    requires ix < |peers| && peers[ix] == host && host !in peers[..ix]
    ensures host in peers && HostAt(peers, host) == ix
  {
  }

  /** The level-by-level walk finds the host's heap position and links it accordingly. */
  method BuildLinks(host: nat, peers: seq<nat>) returns (links: TreeLinks)
    requires host in peers
    ensures links.RootLinks? <==> HostAt(peers, host) == 0
    ensures LinkParents(links) == ParentsIn(peers, host)
    ensures LinkChildren(links) == ChildrenIn(peers, host)
  {
    var lower, upper := 0, 1;
    var prevLower, curPt, curIx := 0, 0, 0;
    while true
      invariant curIx < |peers| && host !in peers[..curIx]
      invariant lower == Pow2(curPt) - 1 && upper == 2 * lower + 1 && lower <= curIx <= upper
      invariant curPt == 0 ==> prevLower == 0
      invariant curPt > 0 ==> lower == 2 * prevLower + 1
      decreases |peers| - curIx
    {
      if curIx >= upper {
        curPt := curPt + 1;
        prevLower := lower;
        lower, upper := upper, upper + Pow2(curPt);
      }
      if peers[curIx] == host {
        FoundAt(peers, host, curIx);
        HeapSpot(lower, upper, prevLower, curIx);
        var ixInPt := curIx - lower;
        links := LinksAt(peers, host, curIx, prevLower + ixInPt / 2, 2 * ixInPt + upper);
        return;
      }
      assert peers[..curIx + 1] == peers[..curIx] + [peers[curIx]];
      curIx := curIx + 1;
    }
  }

  // ----- the overlay of a host -----

  function Identity(): nat -> int {
    (p: nat) => p
  }

  function Remove(s: seq<nat>, i: nat): seq<nat>
    requires i < |s|
  {
    s[..i] + s[i + 1..]
  }

  /** The peers sorted, with the fixed root, if any, in front. */
  function Arranged(peers: seq<nat>, root: Option<nat>): seq<nat> {
    var sorted := SortByKey(Identity(), peers);
    if root.Some? && root.value in sorted then [root.value] + Remove(sorted, HostAt(sorted, root.value)) else sorted
  }

  /** The links of pass `t` and later; `shuffle` is the seeded generator's reordering after a pass. */
  function MakeFrom(passes: nat, t: nat, order: seq<nat>, shuffle: (nat, seq<nat>) -> seq<nat>, host: nat): Links
    decreases passes - t
  {
    if t >= passes || host !in order then Links({}, [])
    else
      var rest := MakeFrom(passes, t + 1, shuffle(t, order), shuffle, host);
      Links(ParentsIn(order, host) + rest.parents, ChildrenIn(order, host) + rest.children)
  }

  ghost predicate Permutes(shuffle: (nat, seq<nat>) -> seq<nat>) {
    forall t: nat, s: seq<nat> :: multiset(shuffle(t, s)) == multiset(s)
  }

  lemma ArrangedPermutes(peers: seq<nat>, root: Option<nat>)
    ensures multiset(Arranged(peers, root)) == multiset(peers)
    ensures root.Some? && root.value in peers ==> Arranged(peers, root)[0] == root.value
  {
    var sorted := SortByKey(Identity(), peers);
    SortCorrect(Identity(), peers);
    SameElements(peers, sorted);
    if root.Some? && root.value in sorted {
      MovedToFront(sorted, HostAt(sorted, root.value));
    }
  }

  predicate AscendsFrom(s: seq<nat>, from: nat) {
    forall i, j :: from <= i < j < |s| ==> s[i] <= s[j]
  }

  lemma SortedAscends(s: seq<nat>)
    requires Sorted(Identity(), s)
    ensures AscendsFrom(s, 0)
  {
    SortedPairs(Identity(), s);
    forall i, j | 0 <= i < j < |s| ensures s[i] <= s[j] { assert Identity()(s[i]) <= Identity()(s[j]); }
  }

  lemma RemoveAscends(s: seq<nat>, i: nat, x: nat)
    requires i < |s| && AscendsFrom(s, 0)
    ensures AscendsFrom([x] + Remove(s, i), 1)
  {
    var r := [x] + Remove(s, i);
    forall a, b | 1 <= a < b < |r| ensures r[a] <= r[b] {
      assert r[a] == s[if a - 1 < i then a - 1 else a] && r[b] == s[if b - 1 < i then b - 1 else b];
    }
  }

  /** The arranged peers ascend, all of them or all but the fixed root. */
  lemma ArrangedAscends(peers: seq<nat>, root: Option<nat>)
    ensures AscendsFrom(Arranged(peers, root), if root.Some? && root.value in peers then 1 else 0)
  {
    var sorted := SortByKey(Identity(), peers);
    SortCorrect(Identity(), peers);
    SameElements(peers, sorted);
    SortedAscends(sorted);
    if root.Some? && root.value in sorted { RemoveAscends(sorted, HostAt(sorted, root.value), root.value); }
  }

  lemma MovedToFront(s: seq<nat>, i: nat)
    requires i < |s|
    ensures multiset([s[i]] + Remove(s, i)) == multiset(s)
  {
    assert s == s[..i] + [s[i]] + s[i + 1..];
  }

  function Union(a: Links, b: Links): Links {
    Links(a.parents + b.parents, a.children + b.children)
  }

  lemma UnionAssociates(a: Links, b: Links, c: Links)
    ensures Union(Union(a, b), c) == Union(a, Union(b, c))
  {
    assert a.parents + b.parents + c.parents == a.parents + (b.parents + c.parents);
    assert a.children + b.children + c.children == a.children + (b.children + c.children);
  }

  lemma UnionEmpty(a: Links)
    ensures Union(a, Links({}, [])) == a == Union(Links({}, []), a)
  {
    assert a.children + [] == a.children == [] + a.children;
    assert a.parents + {} == a.parents == {} + a.parents;
  }

  /** The passes over the arranged peers, shuffling after each. */
  method MakePasses(passes: nat, shuffle: (nat, seq<nat>) -> seq<nat>, host: nat, arranged: seq<nat>)
    returns (overlay: Links)
    requires host in arranged && Permutes(shuffle)
    ensures overlay == MakeFrom(passes, 0, arranged, shuffle, host)
  {
    overlay := Links({}, []);
    UnionEmpty(MakeFrom(passes, 0, arranged, shuffle, host));
    var order := arranged;
    for t := 0 to passes
      invariant host in order
      invariant MakeFrom(passes, 0, arranged, shuffle, host) == Union(overlay, MakeFrom(passes, t, order, shuffle, host))
    {
      var links := BuildLinks(host, order);
      UnionAssociates(overlay, Links(LinkParents(links), LinkChildren(links)), MakeFrom(passes, t + 1, shuffle(t, order), shuffle, host));
      overlay := Links(overlay.parents + LinkParents(links), overlay.children + LinkChildren(links));
      var next := shuffle(t, order);
      SameElements(order, next);
      order := next;
    }
    UnionEmpty(overlay);
  }

  method Make(passes: nat, shuffle: (nat, seq<nat>) -> seq<nat>, root: Option<nat>, host: nat, peers: seq<nat>)
    returns (overlay: Links)
    requires host in peers && (root.Some? ==> root.value in peers) && Permutes(shuffle)
    ensures overlay == MakeFrom(passes, 0, Arranged(peers, root), shuffle, host)
  {
    var order := SortByKey(Identity(), peers);
    SortCorrect(Identity(), peers);
    SameElements(peers, order);
    if root.Some? {
      var ix := HostAt(order, root.value);
      order := [root.value] + Remove(order, ix);
    }
    assert order == Arranged(peers, root);
    ArrangedPermutes(peers, root);
    SameElements(peers, order);
    overlay := MakePasses(passes, shuffle, host, order);
  }

  // ----- coherence across hosts -----

  lemma PositionUnique(order: seq<nat>, i: nat)
    requires Distinct(order) && i < |order|
    ensures HostAt(order, order[i]) == i
  {
  }

  /** In one heap, one host lists the other as child exactly when it is that one's parent. */
  lemma HeapCoherent(order: seq<nat>, i: nat, j: nat)
    requires Distinct(order) && i in order && j in order
    ensures j in ChildrenIn(order, i) <==> i in ParentsIn(order, j)
  {
    var pi, pj := HostAt(order, i), HostAt(order, j);
    if j in ChildrenIn(order, i) {
      if Get(order, 2 * pi + 1) == Some(j) {
        PositionUnique(order, 2 * pi + 1);
      } else {
        PositionUnique(order, 2 * pi + 2);
      }
      assert Parent(pj) == pi;
    }
    if i in ParentsIn(order, j) {
      PositionUnique(order, Parent(pj));
      assert IsChild(pi, pj);
    }
  }

  /** Every host but the root is a child of the host at its parent position. */
  lemma ChildOfParent(heap: seq<nat>, pos: nat)
    requires Distinct(heap) && 0 < pos < |heap|
    ensures heap[pos] in ChildrenIn(heap, heap[Parent(pos)])
  {
    var up := Parent(pos);
    PositionUnique(heap, up);
    assert Get(heap, pos) == Some(heap[pos]) && IsChild(up, pos);
  }

  lemma {:induction false} PassesCoherent(passes: nat, t: nat, order: seq<nat>, shuffle: (nat, seq<nat>) -> seq<nat>, i: nat, j: nat)
    requires Distinct(order) && i in order && j in order && Permutes(shuffle)
    ensures j in MakeFrom(passes, t, order, shuffle, i).children <==> i in MakeFrom(passes, t, order, shuffle, j).parents
    ensures forall c :: c in MakeFrom(passes, t, order, shuffle, i).children ==> c in order
    decreases passes - t
  {
    if t < passes {
      var next := shuffle(t, order);
      SameElements(order, next);
      PermutationDistinct(order, next);
      PassesCoherent(passes, t + 1, next, shuffle, i, j);
      HeapCoherent(order, i, j);
    }
  }

  /** The order in which pass `t` lays the peers out as a heap. */
  function OrderAt(order: seq<nat>, shuffle: (nat, seq<nat>) -> seq<nat>, t: nat): seq<nat> {
    if t == 0 then order else shuffle(t - 1, OrderAt(order, shuffle, t - 1))
  }

  lemma {:induction false} OrderAtPermutes(order: seq<nat>, shuffle: (nat, seq<nat>) -> seq<nat>, t: nat)
    requires Permutes(shuffle) && Distinct(order)
    ensures multiset(OrderAt(order, shuffle, t)) == multiset(order) && Distinct(OrderAt(order, shuffle, t))
    ensures forall x :: x in OrderAt(order, shuffle, t) <==> x in order
  {
    if t > 0 {
      OrderAtPermutes(order, shuffle, t - 1);
    }
    PermutationDistinct(order, OrderAt(order, shuffle, t));
    SameElements(order, OrderAt(order, shuffle, t));
  }

  /** The links from pass `t` on are among all the links. */
  lemma {:induction false} LaterPasses(passes: nat, t: nat, order: seq<nat>, shuffle: (nat, seq<nat>) -> seq<nat>, host: nat, c: nat)
    requires Permutes(shuffle) && Distinct(order) && host in order && t <= passes
    requires c in MakeFrom(passes, t, OrderAt(order, shuffle, t), shuffle, host).children
    ensures c in MakeFrom(passes, 0, order, shuffle, host).children
    decreases t
  {
    if t > 0 {
      OrderAtPermutes(order, shuffle, t - 1);
      LaterPasses(passes, t - 1, order, shuffle, host, c);
    }
  }

  /** Hosts given the same peers, in whatever order, and the same seed agree on every link through
      all passes: `j` is among `i`'s children exactly when `i` is among `j`'s parents. */
  lemma OverlayCoherent(passes: nat, shuffle: (nat, seq<nat>) -> seq<nat>, root: Option<nat>,
                        i: nat, peersOfI: seq<nat>, j: nat, peersOfJ: seq<nat>)
    requires multiset(peersOfI) == multiset(peersOfJ) && Distinct(peersOfI)
    requires i in peersOfI && j in peersOfI && Permutes(shuffle)
    ensures j in MakeFrom(passes, 0, Arranged(peersOfI, root), shuffle, i).children
            <==> i in MakeFrom(passes, 0, Arranged(peersOfJ, root), shuffle, j).parents
  {
    ArrangedCanonical(peersOfI, peersOfJ, root);
    var order := Arranged(peersOfI, root);
    ArrangedPermutes(peersOfI, root);
    SameElements(peersOfI, order);
    PermutationDistinct(peersOfI, order);
    PassesCoherent(passes, 0, order, shuffle, i, j);
  }

  lemma ArrangedCanonical(a: seq<nat>, b: seq<nat>, root: Option<nat>)
    requires multiset(a) == multiset(b)
    ensures Arranged(a, root) == Arranged(b, root)
  {
    SortCorrect(Identity(), a);
    SortCorrect(Identity(), b);
    SortCanonical(Identity(), SortByKey(Identity(), a), SortByKey(Identity(), b));
  }
}

/** The overlay as the network the multicast runs over. */
module OverlayNetwork {
  import opened Sorting
  import opened Contributions
  import opened MulticastNetwork
  import opened Overlay

  /** The hosts `0 .. n`, each with the links it builds for itself. */
  ghost predicate BuiltOverlay(w: Setup, passes: nat, shuffle: (nat, seq<nat>) -> seq<nat>, order: seq<nat>) {
    && Permutes(shuffle) && Distinct(order) && order != []
    && (forall i: nat :: i in order <==> i < |w.links|)
    && (forall i: nat :: i < |w.links| ==> w.links[i] == MakeFrom(passes, 0, order, shuffle, i))
  }

  lemma EdgesMirrored(w: Setup, passes: nat, shuffle: (nat, seq<nat>) -> seq<nat>, order: seq<nat>, i: nat, c: nat)
    requires BuiltOverlay(w, passes, shuffle, order) && Edge(w, i, c)
    ensures c < |w.links| && i in w.links[c].parents
  {
    assert i in order;
    PassesCoherent(passes, 0, order, shuffle, i, i);
    PassesCoherent(passes, 0, order, shuffle, i, c);
  }

  lemma PassEdge(w: Setup, passes: nat, shuffle: (nat, seq<nat>) -> seq<nat>, order: seq<nat>, t: nat, pos: nat)
    requires BuiltOverlay(w, passes, shuffle, order) && t < passes && 0 < pos < |OrderAt(order, shuffle, t)|
    ensures
      var heap := OrderAt(order, shuffle, t);
      Edge(w, heap[Parent(pos)], heap[pos])
  {
    var heap := OrderAt(order, shuffle, t);
    var up := Parent(pos);
    OrderAtPermutes(order, shuffle, t);
    ChildOfParent(heap, pos);
    assert heap[up] in heap && heap[up] in order;
    assert heap[pos] in MakeFrom(passes, t, heap, shuffle, heap[up]).children;
    LaterPasses(passes, t, order, shuffle, heap[up], heap[pos]);
  }

  /** Every host is reached from the root of the heap of every pass. */
  lemma {:induction false} RootReaches(w: Setup, passes: nat, shuffle: (nat, seq<nat>) -> seq<nat>, order: seq<nat>, t: nat, pos: nat)
    requires BuiltOverlay(w, passes, shuffle, order) && t < passes && pos < |OrderAt(order, shuffle, t)|
    ensures
      var heap := OrderAt(order, shuffle, t);
      Reaches(w, heap[0], heap[pos])
    decreases pos
  {
    var heap := OrderAt(order, shuffle, t);
    if pos == 0 {
      OrderAtPermutes(order, shuffle, t);
      assert heap[0] in heap;
      ReachesSelf(w, heap[0]);
    } else {
      RootReaches(w, passes, shuffle, order, t, Parent(pos));
      PassEdge(w, passes, shuffle, order, t, pos);
      ReachesChild(w, heap[0], heap[Parent(pos)], heap[pos]);
    }
  }

  /** Over the overlay the hosts build, a statement of the root of any pass reaches every host: at
      quiescence of any run all of them hold it. */
  lemma RootStatementEverywhere(w: Setup, passes: nat, shuffle: (nat, seq<nat>) -> seq<nat>,
                                order: seq<nat>, run: seq<Net>, t: nat, pos: nat)
    requires BuiltOverlay(w, passes, shuffle, order) && t < passes && pos < |OrderAt(order, shuffle, t)|
    requires |w.init| == |w.links| && Verifies(w.valid, w.truth)
    requires forall i: nat :: i < |w.init| && w.init[i].Some? ==> Part(w.init[i].value, w.truth)
    requires IsRun(w, run) && |run[|run| - 1].hosts| == |w.links| && Quiescent(w, run[|run| - 1])
    requires var root := OrderAt(order, shuffle, t)[0]; root < |w.init| && w.init[root].Some?
    ensures
      var heap := OrderAt(order, shuffle, t);
      heap[pos] < |w.links| && Holds(run[|run| - 1].hosts[heap[pos]], w.init[heap[0]].value)
  {
    var heap := OrderAt(order, shuffle, t);
    forall i: nat, c: nat | Edge(w, i, c) ensures c < |w.links| && i in w.links[c].parents {
      EdgesMirrored(w, passes, shuffle, order, i, c);
    }
    assert WellSet(w);
    OrderAtPermutes(order, shuffle, t);
    assert heap[pos] in heap && heap[pos] in order;
    RootReaches(w, passes, shuffle, order, t, pos);
    RunOk(w, run, |run| - 1);
    var path :| IsPath(w, path) && path[0] == heap[0] && path[|path| - 1] == heap[pos];
    FlowsAlong(w, run[|run| - 1], path);
  }
}
