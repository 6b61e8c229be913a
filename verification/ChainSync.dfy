/** Comparing a peer's chain status with the local chain. */
module ChainSync {
  import opened Prelude

  type Id(==, !new)

  datatype Block = Block(id: Id, slot: nat)

  /** `Longer` carries the wanted suffix, `Shorter` and `Fork` a common point. */
  datatype Cmp = Equal | Longer(suffix: Option<seq<Id>>) | Shorter(point: Id) | Fork(common: Option<Id>) | Nonsense

  datatype Status = Status(height: nat, lastBlocks: seq<Id>)

  const SYNC_HEADERS: nat := 256

  function Ids(chain: seq<Block>): (r: seq<Id>)
    ensures |r| == |chain|
  {
    seq(|chain|, i requires 0 <= i < |chain| => chain[i].id)
  }

  predicate Member(local: seq<Block>, id: Id) {
    id in Ids(local)
  }

  function Tip(chain: seq<Block>): Block
    requires chain != []
  {
    chain[|chain| - 1]
  }

  /** The newest `m` block ids, newest first. */
  function TailOf(chain: seq<Block>, m: nat): (r: seq<Id>)
    requires m <= |chain|
    ensures |r| == m
  {
    seq(m, k requires 0 <= k < m => chain[|chain| - 1 - k].id)
  }

  function LocalStatus(chain: seq<Block>): Status
    requires chain != []
  {
    Status(Tip(chain).slot, TailOf(chain, if |chain| < SYNC_HEADERS then |chain| else SYNC_HEADERS))
  }

  function Gap(height: nat, slot: nat): nat {
    if height > slot then height - slot else 0
  }

  /** Everything before the first occurrence. */
  function Before(tail: seq<Id>, id: Id): seq<Id>
    decreases |tail|
  {
    if tail == [] || tail[0] == id then [] else [tail[0]] + Before(tail[1..], id)
  }

  function FirstMember(local: seq<Block>, tail: seq<Id>): Option<Id>
    decreases |tail|
  {
    if tail == [] then None
    else if Member(local, tail[0]) then Some(tail[0])
    else FirstMember(local, tail[1..])
  }

  function Compare(local: seq<Block>, origin: Id, peer: Status): Cmp
    requires local != []
  {
    var tip := Tip(local);
    var tail := peer.lastBlocks;
    if tail == [] then Shorter(origin)
    else if Gap(peer.height, tip.slot) > |tail| then Longer(None)
    else if tip.id in tail then
      if peer.height < tip.slot then Nonsense
      else if tip.id == tail[0] then Equal
      else Longer(Some(Reverse(Before(tail, tip.id))))
    else
      var common := FirstMember(local, tail);
      if common == Some(tail[0]) then Shorter(tail[0]) else Fork(common)
  }

  // ----- the loops -----

  method CommonPoint(local: seq<Block>, tail: seq<Id>) returns (r: Option<Id>)
    ensures r == FirstMember(local, tail)
  {
    for i := 0 to |tail|
      invariant FirstMember(local, tail[i..]) == FirstMember(local, tail)
    {
      assert tail[i..][0] == tail[i] && tail[i..][1..] == tail[i + 1..];
      if Member(local, tail[i]) {
        return Some(tail[i]);
      }
    }
    r := None;
  }

  /** Entry `n` is the first of the tail that is `id`. */
  predicate FirstAt(tail: seq<Id>, id: Id, n: nat) {
    n < |tail| && tail[n] == id && id !in tail[..n]
  }

  method WantedSuffix(tail: seq<Id>, common: Id) returns (r: seq<Id>)
    ensures r == Reverse(Before(tail, common))
    ensures forall n: nat :: FirstAt(tail, common, n) ==> r == Reverse(tail[..n])
  {
    r := [];
    var i := 0;
    while i < |tail| && tail[i] != common
      invariant i <= |tail| && r == tail[..i] && forall k :: 0 <= k < i ==> tail[k] != common
    {
      r := r + [tail[i]];
      i := i + 1;
    }
    BeforeAt(tail, common, i);
    assert forall n: nat :: FirstAt(tail, common, n) ==> n == i;
    r := Reverse(r);
  }

  /** Entry `n` is the first of the tail that the local chain has. */
  predicate NewestLocal(local: seq<Block>, tail: seq<Id>, n: nat) {
    n < |tail| && Member(local, tail[n]) && forall k :: 0 <= k < n ==> !Member(local, tail[k])
  }

  /** The loops, and which status whatsoever gets which verdict. */
  method CompareRemote(local: seq<Block>, origin: Id, peer: Status) returns (r: Cmp)
    requires local != []
    ensures r == Compare(local, origin, peer)
    ensures peer.lastBlocks == [] ==> r == Shorter(origin)
    ensures r.Nonsense? <==> Tip(local).id in peer.lastBlocks && peer.height < Tip(local).slot
    ensures r == Longer(None) <==> peer.lastBlocks != [] && peer.height > Tip(local).slot + |peer.lastBlocks|
    ensures r.Equal? <==>
      FirstAt(peer.lastBlocks, Tip(local).id, 0) && Tip(local).slot <= peer.height <= Tip(local).slot + |peer.lastBlocks|
    ensures r.Longer? && r.suffix.Some? <==>
      && Tip(local).id in peer.lastBlocks && Tip(local).id != peer.lastBlocks[0]
      && Tip(local).slot <= peer.height <= Tip(local).slot + |peer.lastBlocks|
    ensures forall n: nat :: r.Longer? && r.suffix.Some? && FirstAt(peer.lastBlocks, Tip(local).id, n) ==>
      r.suffix.value == Reverse(peer.lastBlocks[..n])
    ensures r.Shorter? && peer.lastBlocks != [] ==> r == Shorter(peer.lastBlocks[0]) && Member(local, peer.lastBlocks[0])
    ensures forall n: nat :: r.Fork? && NewestLocal(local, peer.lastBlocks, n) ==> r == Fork(Some(peer.lastBlocks[n])) && n > 0
    ensures r == Fork(None) ==> forall k :: 0 <= k < |peer.lastBlocks| ==> !Member(local, peer.lastBlocks[k])
  {
    var tip := Tip(local);
    var tail := peer.lastBlocks;
    if tail == [] {
      return Shorter(origin);
    }
    if Gap(peer.height, tip.slot) > |tail| {
      return Longer(None);
    }
    var optimistic: Option<Id> := None;
    for i := 0 to |tail|
      invariant optimistic == None && tip.id !in tail[..i]
    {
      if tail[i] == tip.id {
        optimistic := Some(tail[i]);
        break;
      }
    }
    assert tail[..|tail|] == tail;
    assert optimistic.Some? <==> tip.id in tail;
    if optimistic.Some? && peer.height >= tip.slot {
      if optimistic.value == tail[0] {
        r := Equal;
      } else {
        var suffix := WantedSuffix(tail, optimistic.value);
        r := Longer(Some(suffix));
      }
    } else if optimistic.None? {
      var common := CommonPoint(local, tail);
      if common.None? {
        r := Fork(None);
      } else if common.value == tail[0] {
        r := Shorter(common.value);
      } else {
        r := Fork(common);
      }
      FirstMemberFound(local, tail);
    } else {
      r := Nonsense;
    }
  }

  // ----- searching a tail -----

  lemma {:induction false} FirstMemberFound(local: seq<Block>, tail: seq<Id>)
    ensures FirstMember(local, tail).Some? ==> FirstMember(local, tail).value in tail && Member(local, FirstMember(local, tail).value)
    ensures forall n: nat :: NewestLocal(local, tail, n) ==> FirstMember(local, tail) == Some(tail[n])
    ensures FirstMember(local, tail).None? ==> forall k :: 0 <= k < |tail| ==> !Member(local, tail[k])
    decreases |tail|
  {
    if tail != [] {
      FirstMemberFound(local, tail[1..]);
    }
  }

  /** If exactly the entries from `n` on are local, the search returns entry `n`. */
  lemma {:induction false} FirstMemberAt(local: seq<Block>, tail: seq<Id>, n: nat)
    requires forall k :: 0 <= k < |tail| ==> (Member(local, tail[k]) <==> n <= k)
    ensures FirstMember(local, tail) == if n < |tail| then Some(tail[n]) else None
    decreases |tail|
  {
    if tail != [] && n > 0 {
      FirstMemberAt(local, tail[1..], n - 1);
    }
  }

  /** Cutting before the first occurrence, or not at all when there is none. */
  lemma {:induction false} BeforeAt(tail: seq<Id>, id: Id, n: nat)
    requires n <= |tail| && (n < |tail| ==> tail[n] == id) && forall k :: 0 <= k < n ==> tail[k] != id
    ensures Before(tail, id) == tail[..n]
    decreases |tail|
  {
    if n > 0 {
      BeforeAt(tail[1..], id, n - 1);
      assert [tail[0]] + tail[1..][..n - 1] == tail[..n];
    }
  }

  // ----- honest chains -----

  ghost predicate Chain(c: seq<Block>) {
    && c != []
    && (forall i, j :: 0 <= i < j < |c| ==> c[i].slot < c[j].slot && c[i].id != c[j].id)
  }

  /** Ids commit to the whole past: an id shared by two chains has the same past in both. */
  ghost predicate SamePast(a: seq<Block>, b: seq<Block>) {
    forall i, j :: 0 <= i < |a| && 0 <= j < |b| && a[i].id == b[j].id ==> i == j && Agree(a, b, i + 1)
  }

  predicate Agree(a: seq<Block>, b: seq<Block>, n: nat) {
    n <= |a| && n <= |b| && a[..n] == b[..n]
  }

  function Shared(a: seq<Block>, b: seq<Block>): (p: nat)
    ensures p <= |a| && p <= |b| && a[..p] == b[..p]
    decreases |a|
  {
    if a == [] || b == [] || a[0] != b[0] then 0 else 1 + Shared(a[1..], b[1..])
  }

  lemma {:induction false} SharedIsLongest(a: seq<Block>, b: seq<Block>, n: nat)
    requires n <= |a| && n <= |b| && a[..n] == b[..n]
    ensures n <= Shared(a, b)
    decreases n
  {
    if n > 0 {
      assert a[0] == a[..n][0] && b[0] == b[..n][0];
      assert a[1..][..n - 1] == a[..n][1..] && b[1..][..n - 1] == b[..n][1..];
      SharedIsLongest(a[1..], b[1..], n - 1);
    }
  }

  /** A remote block is known locally exactly when it lies in the shared part. */
  lemma MemberIff(local: seq<Block>, remote: seq<Block>, j: nat)
    requires SamePast(local, remote) && j < |remote|
    ensures Member(local, remote[j].id) <==> j < Shared(local, remote)
  {
    var p := Shared(local, remote);
    if j < p {
      assert local[j] == local[..p][j] && remote[j] == remote[..p][j];
      assert Ids(local)[j] == remote[j].id;
    }
    if Member(local, remote[j].id) {
      var i :| 0 <= i < |local| && Ids(local)[i] == remote[j].id;
      assert local[i].id == remote[j].id;
      SharedIsLongest(local, remote, j + 1);
    }
  }

  lemma TipFoundInTail(local: seq<Block>, remote: seq<Block>, m: nat)
    requires local != [] && m <= |remote|
    requires Shared(local, remote) == |local| && |remote| - |local| < m
    ensures Tip(local).id in TailOf(remote, m)
  {
    var p := |local|;
    assert local[p - 1] == local[..p][p - 1] && remote[p - 1] == remote[..p][p - 1];
    assert TailOf(remote, m)[|remote| - p] == Tip(local).id;
  }

  lemma TailReachesTip(local: seq<Block>, remote: seq<Block>, m: nat, k: nat)
    requires local != [] && SamePast(local, remote) && k < m <= |remote|
    requires Tip(local).id == TailOf(remote, m)[k]
    ensures Shared(local, remote) == |local| && |remote| - |local| < m
  {
    var j := |remote| - 1 - k;
    assert local[|local| - 1].id == remote[j].id;
    SharedIsLongest(local, remote, j + 1);
  }

  /** The local tip appears in the tail exactly when the remote chain extends the local one by fewer blocks than the tail has. */
  lemma TipInTail(local: seq<Block>, remote: seq<Block>, m: nat)
    requires local != [] && SamePast(local, remote) && m <= |remote|
    ensures Tip(local).id in TailOf(remote, m) <==> Shared(local, remote) == |local| && |remote| - |local| < m
  {
    if Tip(local).id in TailOf(remote, m) {
      var k :| 0 <= k < m && TailOf(remote, m)[k] == Tip(local).id;
      TailReachesTip(local, remote, m, k);
    } else if Shared(local, remote) == |local| && |remote| - |local| < m {
      TipFoundInTail(local, remote, m);
    }
  }

  /** Along a chain slots grow at least as fast as positions. */
  lemma {:induction false} SlotsOutpace(c: seq<Block>, i: nat, j: nat)
    requires Chain(c) && i <= j < |c|
    ensures c[j].slot - c[i].slot >= j - i
    decreases j
  {
    if i < j {
      SlotsOutpace(c, i, j - 1);
    }
  }

  /** Searching an honest tail finds the newest shared block, if the tail reaches it. */
  lemma NewestCommon(local: seq<Block>, remote: seq<Block>, m: nat)
    requires SamePast(local, remote) && m <= |remote|
    ensures
      var p := Shared(local, remote);
      FirstMember(local, TailOf(remote, m)) == if |remote| - p < m then Some(remote[p - 1].id) else None
  {
    var p := Shared(local, remote);
    var tail := TailOf(remote, m);
    forall k | 0 <= k < m ensures Member(local, tail[k]) <==> |remote| - p <= k {
      MemberIff(local, remote, |remote| - 1 - k);
    }
    FirstMemberAt(local, tail, |remote| - p);
  }

  /** Reversing the `n` newest ids gives the last `n` ids of the chain, oldest first. */
  lemma ReversedTail(remote: seq<Block>, m: nat, n: nat)
    requires n <= m <= |remote|
    ensures Reverse(TailOf(remote, m)[..n]) == Ids(remote)[|remote| - n..]
  {
    var front := TailOf(remote, m)[..n];
    forall k | 0 <= k < n ensures Reverse(front)[k] == Ids(remote)[|remote| - n..][k] {
      assert Reverse(front)[k] == front[n - 1 - k];
    }
  }

  /** What an honest tail lists before block `p - 1` of the chain. */
  lemma TailBefore(remote: seq<Block>, m: nat, p: nat)
    requires Chain(remote) && m <= |remote| && 0 < p <= |remote| && |remote| - p < m
    ensures Before(TailOf(remote, m), remote[p - 1].id) == TailOf(remote, m)[..|remote| - p]
  {
    var tail, n := TailOf(remote, m), |remote| - p;
    forall k | 0 <= k < n ensures tail[k] != remote[p - 1].id {
      assert remote[|remote| - 1 - k].id != remote[p - 1].id;
    }
    BeforeAt(tail, remote[p - 1].id, n);
  }

  /** The wanted suffix is what the remote chain has beyond the local one, oldest first. */
  lemma SuffixCompletes(local: seq<Block>, remote: seq<Block>, m: nat)
    requires local != [] && Chain(remote) && m <= |remote|
    requires Shared(local, remote) == |local| && |remote| - |local| < m
    ensures Ids(local) + Reverse(Before(TailOf(remote, m), Tip(local).id)) == Ids(remote)
  {
    var p := |local|;
    assert local == remote[..p] by {
      assert local[..p] == local;
    }
    TailBefore(remote, m, p);
    ReversedTail(remote, m, |remote| - p);
    assert Ids(local) == Ids(remote)[..p];
  }

  /** How an honest peer's chain lies relative to the local one. */
  datatype Relation = Same | Extends | Prefix | Diverges

  function Relate(local: seq<Block>, remote: seq<Block>): Relation {
    var p := Shared(local, remote);
    if p == |local| && p == |remote| then Same
    else if p == |local| then Extends
    else if p == |remote| then Prefix
    else Diverges
  }

  /** The whole decision table for an honest peer that shares its `m` newest blocks. */
  function Verdict(local: seq<Block>, remote: seq<Block>, m: nat): Cmp
    requires local != [] && remote != [] && m <= |remote|
  {
    var p := Shared(local, remote);
    var tooFar := Gap(Tip(remote).slot, Tip(local).slot) > m;
    match Relate(local, remote)
    case Same => Equal
    case Prefix => Shorter(Tip(remote).id)
    case Extends =>
      if tooFar then Longer(None)
      else if |remote| - p < m then Longer(Some(Ids(remote)[p..]))
      else Fork(None)
    case Diverges =>
      if tooFar then Longer(None)
      else if |remote| - p < m then Fork(Some(remote[p - 1].id))
      else Fork(None)
  }

  lemma TipsInShared(local: seq<Block>, remote: seq<Block>)
    requires Chain(local) && Chain(remote)
    ensures Relate(local, remote).Same? ==> local == remote
    ensures Relate(local, remote).Prefix? ==> remote == local[..|remote|] && Tip(remote).slot < Tip(local).slot
    ensures Relate(local, remote).Extends? ==>
      local == remote[..|local|] && Tip(remote).slot - Tip(local).slot >= |remote| - |local|
  {
    var p := Shared(local, remote);
    assert local[..|local|] == local && remote[..|remote|] == remote;
    if Relate(local, remote).Prefix? {
      assert Tip(remote) == remote[..p][p - 1] == local[p - 1];
    }
    if Relate(local, remote).Extends? {
      assert Tip(local) == local[..p][p - 1] == remote[p - 1];
      SlotsOutpace(remote, p - 1, |remote| - 1);
    }
  }

  /** For every pair of hash-linked chains and every tail length the comparison gives the table's verdict. */
  lemma HonestVerdict(local: seq<Block>, remote: seq<Block>, m: nat, origin: Id)
    requires Chain(local) && Chain(remote) && SamePast(local, remote) && 0 < m <= |remote|
    ensures Compare(local, origin, Status(Tip(remote).slot, TailOf(remote, m))) == Verdict(local, remote, m)
  {
    var tail := TailOf(remote, m);
    TipsInShared(local, remote);
    TipInTail(local, remote, m);
    NewestCommon(local, remote, m);
    assert tail[0] == Tip(remote).id;
    match Relate(local, remote)
    case Same =>
    case Prefix =>
    case Extends =>
      ExtendsVerdict(local, remote, m, origin);
    case Diverges =>
      DivergesVerdict(local, remote, m, origin);
  }

  lemma ExtendsVerdict(local: seq<Block>, remote: seq<Block>, m: nat, origin: Id)
    requires Chain(local) && Chain(remote) && SamePast(local, remote) && 0 < m <= |remote|
    requires Relate(local, remote).Extends?
    ensures Compare(local, origin, Status(Tip(remote).slot, TailOf(remote, m))) == Verdict(local, remote, m)
  {
    TipsInShared(local, remote);
    TipInTail(local, remote, m);
    NewestCommon(local, remote, m);
    assert Tip(local).id != Tip(remote).id;
    if |remote| - |local| < m {
      SuffixCompletes(local, remote, m);
      var s := Reverse(Before(TailOf(remote, m), Tip(local).id));
      assert Ids(remote)[|local|..] == (Ids(local) + s)[|local|..] == s;
    }
  }

  lemma DivergesVerdict(local: seq<Block>, remote: seq<Block>, m: nat, origin: Id)
    requires Chain(local) && Chain(remote) && SamePast(local, remote) && 0 < m <= |remote|
    requires Relate(local, remote).Diverges?
    ensures Compare(local, origin, Status(Tip(remote).slot, TailOf(remote, m))) == Verdict(local, remote, m)
  {
    var p := Shared(local, remote);
    TipInTail(local, remote, m);
    NewestCommon(local, remote, m);
    if |remote| - p < m {
      assert remote[p - 1].id != remote[|remote| - 1].id;
    }
  }

  /** When the remote chain extends the local one: exactly when the missing blocks are handed over, and that they complete the local chain. */
  lemma ExtensionHandedOverIff(local: seq<Block>, remote: seq<Block>, m: nat, origin: Id)
    requires Chain(local) && Chain(remote) && SamePast(local, remote) && 0 < m <= |remote|
    requires Relate(local, remote).Extends?
    ensures
      var r := Compare(local, origin, Status(Tip(remote).slot, TailOf(remote, m)));
      var gap := Tip(remote).slot - Tip(local).slot;
      && ((r.Longer? && r.suffix.Some?) <==> gap <= m && |remote| - |local| < m)
      && (r.Longer? && r.suffix.Some? ==> Ids(local) + r.suffix.value == Ids(remote))
      && (r == Fork(None) <==> gap == |remote| - |local| == m)
  {
    ExtendsVerdict(local, remote, m, origin);
    TipsInShared(local, remote);
    if |remote| - |local| < m {
      SuffixCompletes(local, remote, m);
      assert Ids(local) + Ids(remote)[|local|..] == Ids(remote);
    }
  }

  /** A peer exactly one full status ahead in consecutive slots is taken for a fork, not a longer chain. */
  lemma FullStatusAheadIsFork(remote: seq<Block>, origin: Id)
    requires Chain(remote) && |remote| > SYNC_HEADERS
    requires Tip(remote).slot - remote[|remote| - 1 - SYNC_HEADERS].slot == SYNC_HEADERS
    ensures Compare(remote[..|remote| - SYNC_HEADERS], origin, LocalStatus(remote)) == Fork(None)
  {
    var n := |remote| - SYNC_HEADERS;
    var local := remote[..n];
    assert SamePast(local, remote) by {
      forall i, j | 0 <= i < |local| && 0 <= j < |remote| && local[i].id == remote[j].id
        ensures i == j && Agree(local, remote, i + 1)
      {
        assert remote[i].id == remote[j].id;
        assert local[..i + 1] == remote[..i + 1];
      }
    }
    SharedIsLongest(local, remote, n);
    ExtensionHandedOverIff(local, remote, SYNC_HEADERS, origin);
  }

  /** Between nodes that report their true status the verdict is the table's, and never nonsense. */
  lemma StatusExchange(local: seq<Block>, remote: seq<Block>, origin: Id)
    requires Chain(local) && Chain(remote) && SamePast(local, remote)
    ensures
      var r := Compare(local, origin, LocalStatus(remote));
      && r == Verdict(local, remote, |LocalStatus(remote).lastBlocks|) && r != Nonsense
      && (r == Equal <==> local == remote)
  {
    HonestVerdict(local, remote, |LocalStatus(remote).lastBlocks|, origin);
    if local == remote {
      assert local[..|local|] == remote[..|local|];
      SharedIsLongest(local, remote, |local|);
    }
    TipsInShared(local, remote);
  }
}
