/** What becomes of a store whose last block was taken: the oldest record stays behind. */
module ChainCacheDrain {
  import opened Prelude
  import opened ChainCache
  import opened ChainCacheRefinement

  // ----- appending to any store with an oldest record -----

  /** A put seen key by key, transactions aside. */
  lemma PutBlockKeys(db: Db, hash: Tx -> TxId, b: Block, id: Id)
    requires b.id != b.parent
    ensures
      var r := PutBlock(db, hash, b);
      && (OldestKey in r <==> OldestKey in db) && (OldestKey in db ==> r[OldestKey] == db[OldestKey])
      && (ChildKey(id) in r <==> id == b.parent || ChildKey(id) in db)
      && (ChildKey(id) in r ==> r[ChildKey(id)] == if id == b.parent then IdVal(b.id) else db[ChildKey(id)])
      && (ParentKey(id) in r <==> id == b.id || ParentKey(id) in db)
      && (TxIdsKey(id) in r <==> id == b.id || TxIdsKey(id) in db)
      && (TxIdsKey(id) in r ==> r[TxIdsKey(id)] == if id == b.id then IdsVal(TxIds(hash, b.txs)) else db[TxIdsKey(id)])
      && Stored(r, id) == if id == b.id then Some(RecordOf(b)) else Stored(db, id)
  {
    var db0 := PutOwn(db, hash, b);
    PutTxsFrame(db0, hash, b.txs);
    var r := PutTxs(db0, hash, b.txs);
    SameKey(db0, r, OldestKey, hash, b.txs);
    SameKey(db0, r, ChildKey(id), hash, b.txs);
    SameKey(db0, r, ParentKey(id), hash, b.txs);
    SameKey(db0, r, TxIdsKey(id), hash, b.txs);
    SameKey(db0, r, SlotKey(id), hash, b.txs);
    SameKey(db0, r, NumberKey(id), hash, b.txs);
  }

  lemma SameKey(db: Db, r: Db, k: Key, hash: Tx -> TxId, txs: seq<Tx>)
    requires forall x :: x in db ==> x in r
    requires forall x :: x in r && x !in TxKeys(TxIds(hash, txs)) ==> x in db && r[x] == db[x]
    requires !k.TxKey?
    ensures k in r <==> k in db
    ensures k in db ==> r[k] == db[k]
  {
  }

  predicate HasOldest(db: Db) {
    OldestKey in db && db[OldestKey].RecVal?
  }

  /** The block that would become the oldest if `oldest` were evicted by appending `b`. */
  function Successor(db: Db, b: Block, oldest: Id): Option<Id> {
    if b.parent == oldest then Some(b.id)
    else if ChildKey(oldest) in db && db[ChildKey(oldest)].IdVal? then Some(db[ChildKey(oldest)].id)
    else None
  }

  /** An eviction finds everything it unwraps. */
  predicate EvictionFinds(db: Db, b: Block, oldest: Id) {
    var next := Successor(db, b, oldest);
    && next.Some? && (next.value == b.id || Stored(db, next.value).Some?)
    && (b.id == oldest || (TxIdsKey(oldest) in db && db[TxIdsKey(oldest)].IdsVal?))
  }

  /** The number of the block decides: below the oldest, at the eviction distance, or anything else. */
  datatype Distance = Below | AtDepth | Elsewhere

  function DistanceOf(db: Db, depth: nat, b: Block): Distance
    requires HasOldest(db)
  {
    var oldest := db[OldestKey].rec.number;
    if b.number < oldest then Below else if b.number - oldest == depth then AtDepth else Elsewhere
  }

  lemma EvictsIff(db: Db, hash: Tx -> TxId, b: Block, oldest: Id)
    requires b.id != b.parent
    ensures Evict(PutBlock(db, hash, b), oldest).Some? <==> EvictionFinds(db, b, oldest)
  {
    PutBlockKeys(db, hash, b, oldest);
    var next := Successor(db, b, oldest);
    if next.Some? {
      PutBlockKeys(db, hash, b, next.value);
    }
  }

  /** An append to any store with an oldest record panics exactly for a number below it, and at the eviction
      distance when something the eviction needs is missing. */
  lemma AppendPanicsIff(db: Db, depth: nat, hash: Tx -> TxId, b: Block)
    requires HasOldest(db) && b.id != b.parent
    ensures Append(db, depth, hash, b).None? <==>
      match DistanceOf(db, depth, b) {
        case Below => true
        case AtDepth => !EvictionFinds(db, b, db[OldestKey].rec.id)
        case Elsewhere => false
      }
  {
    var oldest := db[OldestKey].rec.id;
    PutBlockKeys(db, hash, b, oldest);
    EvictsIff(db, hash, b, oldest);
  }

  /** When a store with an oldest record can take `b` into service as its only block. */
  predicate Reusable(db: Db, depth: nat, hash: Tx -> TxId, b: Block)
    requires HasOldest(db)
  {
    var oldest := db[OldestKey].rec;
    match DistanceOf(db, depth, b)
    case Below => false
    case Elsewhere => oldest == RecordOf(b) && ParentKey(b.parent) !in db
    case AtDepth =>
      && b.id != oldest.id && Successor(db, b, oldest.id) == Some(b.id)
      && TxIdsKey(oldest.id) in db && db[TxIdsKey(oldest.id)].IdsVal?
      && NoShared(TxIds(hash, b.txs), db[TxIdsKey(oldest.id)].ids)
      && (b.parent == oldest.id || ParentKey(b.parent) !in db)
  }

  lemma PutRepresentsIff(db: Db, hash: Tx -> TxId, b: Block)
    requires HasOldest(db) && Extends(hash, [], b)
    ensures Represents(PutBlock(db, hash, b), hash, [b]) <==> db[OldestKey].rec == RecordOf(b) && ParentKey(b.parent) !in db
  {
    PutBlockHolds(db, hash, b);
    PutBlockKeys(db, hash, b, b.parent);
    assert [b][0] == b && Linked(hash, [b]);
  }

  /** What an eviction right after the put leaves of `b` itself. */
  lemma EvictHoldsIff(db1: Db, hash: Tx -> TxId, b: Block, rec: Record, ids: seq<TxId>, oldest: Id)
    requires HoldsBlock(db1, hash, b)
    ensures HoldsBlock(db1[OldestKey := RecVal(rec)] - TxKeys(ids) - OwnKeys(oldest), hash, b) <==>
            b.id != oldest && NoShared(TxIds(hash, b.txs), ids)
  {
    var r := db1[OldestKey := RecVal(rec)] - TxKeys(ids) - OwnKeys(oldest);
    if b.id == oldest {
      assert ParentKey(b.id) !in r;
    } else if NoShared(TxIds(hash, b.txs), ids) {
      HoldsApart(db1, r, hash, b, OwnKeys(oldest), ids);
    } else {
      var t :| t in TxIds(hash, b.txs) && t in ids;
      var i :| 0 <= i < |b.txs| && TxIds(hash, b.txs)[i] == t;
      assert TxKey(hash(b.txs[i])) in TxKeys(ids);
      assert !HoldsTx(r, hash, b.txs[i]);
    }
  }

  /** Representing one block is holding it between the two end records. */
  lemma RepresentsOne(r: Db, hash: Tx -> TxId, b: Block)
    requires Extends(hash, [], b)
    ensures Represents(r, hash, [b]) <==> HoldsBlock(r, hash, b) && Ends(r, [b])
  {
    assert [b][0] == b && Linked(hash, [b]);
  }

  lemma EvictEndsIff(db1: Db, b: Block, rec: Record, ids: seq<TxId>, oldest: Id)
    requires BestKey in db1 && db1[BestKey] == RecVal(RecordOf(b))
    ensures Ends(db1[OldestKey := RecVal(rec)] - TxKeys(ids) - OwnKeys(oldest), [b]) <==>
            rec == RecordOf(b) && (b.parent == oldest || ParentKey(b.parent) !in db1)
  {
  }

  /** What the eviction computes, in terms of the store before the append. */
  lemma EvictValue(db: Db, hash: Tx -> TxId, b: Block, oldest: Id, next: Id, ids: seq<TxId>)
    requires b.id != b.parent && b.id != oldest && Successor(db, b, oldest) == Some(next)
    requires TxIdsKey(oldest) in db && db[TxIdsKey(oldest)] == IdsVal(ids) && (next == b.id || Stored(db, next).Some?)
    ensures
      var db1, rec := PutBlock(db, hash, b), if next == b.id then RecordOf(b) else Stored(db, next).value;
      Evict(db1, oldest) == Some(db1[OldestKey := RecVal(rec)] - TxKeys(ids) - OwnKeys(oldest))
  {
    PutBlockKeys(db, hash, b, oldest);
    PutBlockKeys(db, hash, b, next);
  }

  /** A block that evicts itself is gone. */
  lemma SelfEviction(db1: Db, hash: Tx -> TxId, b: Block)
    requires Evict(db1, b.id).Some? && Extends(hash, [], b)
    ensures !Represents(Evict(db1, b.id).value, hash, [b])
  {
    RepresentsOne(Evict(db1, b.id).value, hash, b);
    assert ParentKey(b.id) !in Evict(db1, b.id).value;
  }

  lemma EvictRepresentsIff(db: Db, depth: nat, hash: Tx -> TxId, b: Block)
    requires HasOldest(db) && Extends(hash, [], b) && DistanceOf(db, depth, b).AtDepth?
    requires EvictionFinds(db, b, db[OldestKey].rec.id)
    ensures
      var r := Evict(PutBlock(db, hash, b), db[OldestKey].rec.id);
      r.Some? && (Represents(r.value, hash, [b]) <==> Reusable(db, depth, hash, b))
  {
    var oldest, db1 := db[OldestKey].rec.id, PutBlock(db, hash, b);
    EvictsIff(db, hash, b, oldest);
    if b.id == oldest {
      SelfEviction(db1, hash, b);
    } else {
      var next, ids := Successor(db, b, oldest).value, db[TxIdsKey(oldest)].ids;
      EvictValue(db, hash, b, oldest, next, ids);
      var rec := if next == b.id then RecordOf(b) else Stored(db, next).value;
      PutBlockHolds(db, hash, b);
      PutBlockKeys(db, hash, b, b.parent);
      EvictHoldsIff(db1, hash, b, rec, ids, oldest);
      EvictEndsIff(db1, b, rec, ids, oldest);
      RepresentsOne(Evict(db1, oldest).value, hash, b);
    }
  }

  /** For every append to a store with an oldest record, drained or not: it ends up representing the appended
      block alone exactly when what the store held before says so. */
  lemma AppendAfterDrainIff(db: Db, depth: nat, hash: Tx -> TxId, b: Block)
    requires HasOldest(db) && Extends(hash, [], b)
    ensures
      var r := Append(db, depth, hash, b);
      (r.Some? && Represents(r.value, hash, [b])) <==> Reusable(db, depth, hash, b)
  {
    AppendPanicsIff(db, depth, hash, b);
    PutBlockKeys(db, hash, b, b.id);
    match DistanceOf(db, depth, b)
    case Below =>
    case Elsewhere => PutRepresentsIff(db, hash, b);
    case AtDepth =>
      if EvictionFinds(db, b, db[OldestKey].rec.id) {
        EvictRepresentsIff(db, depth, hash, b);
      }
  }

  /** Taking the only block and appending one in its place works exactly for the same block again. */
  lemma ReuseAfterDrainIff(db: Db, depth: nat, hash: Tx -> TxId, a: Block, b: Block)
    requires Represents(db, hash, [a]) && depth > 0 && Extends(hash, [], b)
    requires b.parent == a.parent && b.number == a.number
    ensures
      Take(db).Took? &&
      var r := Append(Take(db).db, depth, hash, b);
      r.Some? && (Represents(r.value, hash, [b]) <==> RecordOf(b) == RecordOf(a))
  {
    TakeResult(db, hash, [a]);
    assert Ends(db, [a]);
    AppendAfterDrainIff(Take(db).db, depth, hash, b);
    AppendPanicsIff(Take(db).db, depth, hash, b);
  }

  /** Taking the only block and appending a child of it works exactly at depth one. */
  lemma ChildAfterDrainIff(db: Db, depth: nat, hash: Tx -> TxId, a: Block, b: Block)
    requires Represents(db, hash, [a]) && depth > 0 && Extends(hash, [a], b)
    ensures
      Take(db).Took? &&
      var r := Append(Take(db).db, depth, hash, b);
      r.Some? && (Represents(r.value, hash, [b]) <==> depth == 1)
  {
    TakeResult(db, hash, [a]);
    assert Ends(db, [a]) && HoldsBlock(db, hash, [a][0]);
    var db' := Take(db).db;
    assert NoShared(TxIds(hash, [a][0].txs), TxIds(hash, b.txs));
    assert b.id != [a][0].id && b.parent == [a][|[a]| - 1].id;
    assert Extends(hash, [], b);
    AppendAfterDrainIff(db', depth, hash, b);
    AppendPanicsIff(db', depth, hash, b);
  }

  // ----- taking everything, then another fork -----

  /** Everything but transactions and the best record is as it was. */
  ghost predicate SameButTaken(db: Db, r: Db) {
    forall k: Key :: !k.TxKey? && !k.BestKey? ==> (k in r <==> k in db) && (k in db ==> r[k] == db[k])
  }

  function Takes(n: nat): seq<Op> {
    if n == 0 then [] else [TakeOp] + Takes(n - 1)
  }

  function Appends(rs: seq<Block>): (ops: seq<Op>)
    ensures |ops| == |rs|
    ensures forall i :: 0 <= i < |rs| ==> ops[i] == AppendOp(rs[i])
  {
    seq(|rs|, i requires 0 <= i < |rs| => AppendOp(rs[i]))
  }

  /** Taking all blocks of a represented chain drains the store and leaves every other key behind. */
  lemma {:induction false} TakesDrain(db: Db, depth: nat, hash: Tx -> TxId, chain: seq<Block>)
    requires Represents(db, hash, chain)
    ensures
      var r := RunDb(db, depth, hash, Takes(|chain|));
      r.Some? && DrainedDb(r.value) && SameButTaken(db, r.value)
    decreases |chain|
  {
    TakePops(db, hash, chain);
    TakeResult(db, hash, chain);
    var r := Take(db).db;
    assert SameButTaken(db, r);
    assert Takes(|chain|)[1..] == Takes(|chain| - 1);
    if |chain| > 1 {
      TakesDrain(r, depth, hash, chain[..|chain| - 1]);
    }
  }

  lemma {:induction false} RunConcat(db: Db, depth: nat, hash: Tx -> TxId, a: seq<Op>, b: seq<Op>)
    ensures
      var r := RunDb(db, depth, hash, a);
      RunDb(db, depth, hash, a + b) == if r.None? then None else RunDb(r.value, depth, hash, b)
    decreases |a|
  {
    if a == [] {
      assert a + b == b;
    } else {
      assert (a + b)[0] == a[0] && (a + b)[1..] == a[1..] + b;
      var next := DbStep(db, depth, hash, a[0]);
      if next.Some? {
        RunConcat(next.value, depth, hash, a[1..], b);
      }
    }
  }

  /** Blocks numbered from the oldest record on, none of them the block it names or a child of it, and none
      of them `stale`. */
  ghost predicate OtherFork(rec: Record, rs: seq<Block>, stale: Option<Id>) {
    forall i :: 0 <= i < |rs| ==>
      && rs[i].number == rec.number + i && rs[i].id != rec.id && rs[i].parent != rec.id && rs[i].id != rs[i].parent
      && stale != Some(rs[i].id)
  }

  /** The child the store remembers for a block. */
  function StaleChild(db: Db, id: Id): Option<Id> {
    if ChildKey(id) in db && db[ChildKey(id)].IdVal? then Some(db[ChildKey(id)].id) else None
  }

  /** What an eviction of `rec` will look at. */
  ghost predicate SameForEviction(db: Db, r: Db, rec: Record, stale: Option<Id>) {
    && OldestKey in r && r[OldestKey] == RecVal(rec) && StaleChild(r, rec.id) == stale == StaleChild(db, rec.id)
    && (TxIdsKey(rec.id) in r <==> TxIdsKey(rec.id) in db)
    && (TxIdsKey(rec.id) in db ==> r[TxIdsKey(rec.id)] == db[TxIdsKey(rec.id)])
    && (stale.Some? ==> Stored(r, stale.value) == Stored(db, stale.value))
  }

  /** Before the eviction distance the fork's blocks go in and the oldest record stays as it is. */
  lemma {:induction false} ForkGoesIn(db: Db, depth: nat, hash: Tx -> TxId, rec: Record, rs: seq<Block>, n: nat)
    requires OldestKey in db && db[OldestKey] == RecVal(rec)
    requires OtherFork(rec, rs, StaleChild(db, rec.id)) && n <= |rs| && n <= depth
    ensures
      var r := RunDb(db, depth, hash, Appends(rs[..n]));
      r.Some? && SameForEviction(db, r.value, rec, StaleChild(db, rec.id))
    decreases n
  {
    if n > 0 {
      ForkGoesIn(db, depth, hash, rec, rs, n - 1);
      var r, b := RunDb(db, depth, hash, Appends(rs[..n - 1])).value, rs[n - 1];
      assert Appends(rs[..n]) == Appends(rs[..n - 1]) + [AppendOp(b)];
      RunConcat(db, depth, hash, Appends(rs[..n - 1]), [AppendOp(b)]);
      RunOne(r, depth, hash, AppendOp(b));
      AppendPanicsIff(r, depth, hash, b);
      PutBlockKeys(r, hash, b, rec.id);
      if StaleChild(db, rec.id).Some? {
        PutBlockKeys(r, hash, b, StaleChild(db, rec.id).value);
      }
    }
  }

  lemma RunOne(db: Db, depth: nat, hash: Tx -> TxId, op: Op)
    ensures RunDb(db, depth, hash, [op]) == DbStep(db, depth, hash, op)
  {
    assert [op][1..] == [];
  }

  /** What the eviction will need is still in the store. */
  predicate Remembers(db: Db, id: Id) {
    && StaleChild(db, id).Some? && Stored(db, StaleChild(db, id).value).Some?
    && TxIdsKey(id) in db && db[TxIdsKey(id)].IdsVal?
  }

  /**
   * Any depth: over a store whose oldest record is stale, another fork goes in until its block at the eviction
   * distance.  That append panics exactly when the store does not remember a child of the stale block; otherwise
   * the oldest record moves to that child, which is not on the fork.
   */
  lemma ForkAfterDrain(db: Db, depth: nat, hash: Tx -> TxId, rec: Record, rs: seq<Block>)
    requires depth > 0 && OldestKey in db && db[OldestKey] == RecVal(rec) && |rs| == depth + 1
    requires OtherFork(rec, rs, StaleChild(db, rec.id))
    ensures RunDb(db, depth, hash, Appends(rs[..depth])).Some?
    ensures
      var r := RunDb(db, depth, hash, Appends(rs));
      && (r.None? <==> !Remembers(db, rec.id))
      && (r.Some? ==> OldestKey in r.value && r.value[OldestKey] == RecVal(Stored(db, StaleChild(db, rec.id).value).value))
  {
    ForkGoesIn(db, depth, hash, rec, rs, depth);
    var r, b := RunDb(db, depth, hash, Appends(rs[..depth])).value, rs[depth];
    assert Appends(rs) == Appends(rs[..depth]) + [AppendOp(b)];
    RunConcat(db, depth, hash, Appends(rs[..depth]), [AppendOp(b)]);
    RunOne(r, depth, hash, AppendOp(b));
    AppendPanicsIff(r, depth, hash, b);
    PutBlockKeys(r, hash, b, rec.id);
    if EvictionFinds(r, b, rec.id) {
      EvictValue(r, hash, b, rec.id, StaleChild(db, rec.id).value, db[TxIdsKey(rec.id)].ids);
    }
  }

  /** From any represented chain: take every block, then append another fork past the depth.  The run panics
      exactly when the chain was one block the store remembers no child of; a longer chain never panics, and
      leaves the oldest record on its second block, which the fork abandoned. */
  lemma DrainThenFork(db: Db, depth: nat, hash: Tx -> TxId, chain: seq<Block>, rs: seq<Block>)
    requires Represents(db, hash, chain) && depth > 0 && |rs| == depth + 1
    requires OtherFork(RecordOf(chain[0]), rs, StaleChild(db, chain[0].id))
    ensures
      var r := RunDb(db, depth, hash, Takes(|chain|) + Appends(rs));
      && (r.None? <==> !Remembers(db, chain[0].id))
      && (|chain| > 1 ==> r.Some? && OldestKey in r.value && r.value[OldestKey] == RecVal(RecordOf(chain[1])))
  {
    TakesDrain(db, depth, hash, chain);
    var drained := RunDb(db, depth, hash, Takes(|chain|)).value;
    RunConcat(db, depth, hash, Takes(|chain|), Appends(rs));
    assert Ends(db, chain);
    SameRemembered(db, drained, chain[0].id);
    ForkAfterDrain(drained, depth, hash, RecordOf(chain[0]), rs);
    if |chain| > 1 {
      assert LinksChild(db, chain[1 - 1].id, chain[1].id);
      assert HoldsBlock(db, hash, chain[0]) && HoldsBlock(db, hash, chain[1]);
    }
  }

  lemma SameRemembered(db: Db, r: Db, id: Id)
    requires SameButTaken(db, r)
    ensures StaleChild(r, id) == StaleChild(db, id) && (Remembers(r, id) <==> Remembers(db, id))
    ensures StaleChild(db, id).Some? ==> Stored(r, StaleChild(db, id).value) == Stored(db, StaleChild(db, id).value)
  {
  }

  /** Reachable from an empty store at every depth: append one block, take it, append another fork past the
      depth; the last append panics. */
  lemma DrainThenForkPanics(depth: nat, hash: Tx -> TxId, a: Block, rs: seq<Block>)
    requires depth > 0 && Extends(hash, [], a) && |rs| == depth + 1 && OtherFork(RecordOf(a), rs, None)
    ensures RunDb(map[], depth, hash, [AppendOp(a)] + (Takes(1) + Appends(rs))).None?
  {
    FirstAppend(depth, hash, a);
    FirstPut(hash, a);
    var db := Append(map[], depth, hash, a).value;
    RunOne(map[], depth, hash, AppendOp(a));
    RunConcat(map[], depth, hash, [AppendOp(a)], Takes(1) + Appends(rs));
    assert StaleChild(db, a.id) == None;
    assert [a][0] == a;
    DrainThenFork(db, depth, hash, [a], rs);
  }
}
