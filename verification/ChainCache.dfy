/** The chain cache: blocks in a key-value store that should behave as a bounded stack. */
module ChainCache {
  import opened Prelude

  type Id(==, !new)
  type TxId(==, !new)
  type Tx(==, !new)

  datatype Block = Block(id: Id, parent: Id, slot: nat, number: nat, txs: seq<Tx>)
  datatype Record = Record(id: Id, slot: nat, number: nat)

  datatype Key =
    | ParentKey(id: Id) | ChildKey(id: Id) | SlotKey(id: Id) | NumberKey(id: Id) | TxIdsKey(id: Id)
    | TxKey(tx: TxId) | BestKey | OldestKey

  datatype Val = IdVal(id: Id) | NumVal(n: nat) | IdsVal(ids: seq<TxId>) | TxVal(tx: Tx) | RecVal(rec: Record)

  type Db = map<Key, Val>

  function RecordOf(b: Block): Record {
    Record(b.id, b.slot, b.number)
  }

  function TxIds(hash: Tx -> TxId, txs: seq<Tx>): (r: seq<TxId>)
    ensures |r| == |txs|
  {
    seq(|txs|, i requires 0 <= i < |txs| => hash(txs[i]))
  }

  // ----- the operations on the store; `None` stands for an unwrap that panics -----

  function PutTxs(db: Db, hash: Tx -> TxId, txs: seq<Tx>): Db
    decreases |txs|
  {
    if txs == [] then db else PutTxs(db[TxKey(hash(txs[0])) := TxVal(txs[0])], hash, txs[1..])
  }

  function TxKeys(ids: seq<TxId>): set<Key> {
    set t | t in ids :: TxKey(t)
  }

  /** The keys stored under a block's own id. */
  function OwnKeys(id: Id): set<Key> {
    {ParentKey(id), ChildKey(id), SlotKey(id), NumberKey(id), TxIdsKey(id)}
  }

  /** The record of a block before its transactions are put. */
  function PutOwn(db: Db, hash: Tx -> TxId, b: Block): Db {
    db[ParentKey(b.id) := IdVal(b.parent)][ChildKey(b.parent) := IdVal(b.id)]
      [SlotKey(b.id) := NumVal(b.slot)][NumberKey(b.id) := NumVal(b.number)]
      [TxIdsKey(b.id) := IdsVal(TxIds(hash, b.txs))]
  }

  function PutBlock(db: Db, hash: Tx -> TxId, b: Block): Db {
    PutTxs(PutOwn(db, hash, b), hash, b.txs)[BestKey := RecVal(RecordOf(b))]
  }

  /** The record stored for a block found by its id. */
  function Stored(db: Db, id: Id): Option<Record> {
    if SlotKey(id) in db && db[SlotKey(id)].NumVal? && NumberKey(id) in db && db[NumberKey(id)].NumVal?
    then Some(Record(id, db[SlotKey(id)].n, db[NumberKey(id)].n)) else None
  }

  /** The oldest block makes room: its child becomes the oldest and all its data is deleted. */
  function Evict(db: Db, oldest: Id): Option<Db> {
    if ChildKey(oldest) !in db || !db[ChildKey(oldest)].IdVal? then None
    else
      var next := Stored(db, db[ChildKey(oldest)].id);
      if next.None? || TxIdsKey(oldest) !in db || !db[TxIdsKey(oldest)].IdsVal? then None
      else Some(db[OldestKey := RecVal(next.value)] - TxKeys(db[TxIdsKey(oldest)].ids) - OwnKeys(oldest))
  }

  function Append(db: Db, depth: nat, hash: Tx -> TxId, b: Block): Option<Db> {
    var db1 := PutBlock(db, hash, b);
    if OldestKey !in db1 then Some(db1[OldestKey := RecVal(RecordOf(b))])
    else if !db1[OldestKey].RecVal? || b.number < db1[OldestKey].rec.number then None
    else if b.number - db1[OldestKey].rec.number == depth then Evict(db1, db1[OldestKey].rec.id)
    else Some(db1)
  }

  /** Reads and deletes the transactions one by one. */
  function TakeTxs(db: Db, ids: seq<TxId>): Option<(seq<Tx>, Db)>
    decreases |ids|
  {
    if ids == [] then Some(([], db))
    else if TxKey(ids[0]) !in db || !db[TxKey(ids[0])].TxVal? then None
    else
      var rest := TakeTxs(db - {TxKey(ids[0])}, ids[1..]);
      if rest.None? then None else Some(([db[TxKey(ids[0])].tx] + rest.value.0, rest.value.1))
  }

  datatype Taken = Panic | Nothing | Took(block: Block, db: Db)

  function Take(db: Db): Taken {
    if BestKey !in db then Nothing
    else if !db[BestKey].RecVal? then Panic
    else
      var best := db[BestKey].rec;
      if TxIdsKey(best.id) !in db then Nothing
      else if !db[TxIdsKey(best.id)].IdsVal? then Panic
      else
        var txs := TakeTxs(db, db[TxIdsKey(best.id)].ids);
        if txs.None? || ParentKey(best.id) !in db || !db[ParentKey(best.id)].IdVal? then Panic
        else
          var parent := db[ParentKey(best.id)].id;
          var block := Block(best.id, parent, best.slot, best.number, txs.value.0);
          var db1 := txs.value.1 - {BestKey};
          if ParentKey(parent) !in db1 then Took(block, db1)
          else
            var rec := Stored(db1, parent);
            if rec.None? then Panic else Took(block, db1[BestKey := RecVal(rec.value)])
  }
}

/** The cache refines a bounded stack. */
module ChainCacheRefinement {
  import opened Prelude
  import opened ChainCache

  // ----- what a store must hold to represent a chain -----

  /** Block numbers and parents chain up; ids and transactions do not repeat. */
  ghost predicate Linked(hash: Tx -> TxId, chain: seq<Block>) {
    && (forall i :: 0 < i < |chain| ==> chain[i].parent == chain[i - 1].id && chain[i].number == chain[i - 1].number + 1)
    && (forall i, j :: 0 <= i < j < |chain| ==> chain[i].id != chain[j].id)
    && (forall i :: 0 <= i < |chain| ==> NoRepeats(TxIds(hash, chain[i].txs)) && chain[i].id != chain[0].parent)
    && (forall i, j :: 0 <= i < j < |chain| ==> NoShared(TxIds(hash, chain[i].txs), TxIds(hash, chain[j].txs)))
  }

  predicate NoRepeats(ids: seq<TxId>) {
    forall i, j :: 0 <= i < j < |ids| ==> ids[i] != ids[j]
  }

  predicate NoShared(a: seq<TxId>, b: seq<TxId>) {
    forall t :: t in a ==> t !in b
  }

  /** All of a block's data is in the store, except the link to its child. */
  ghost predicate HoldsBlock(db: Db, hash: Tx -> TxId, b: Block) {
    && ParentKey(b.id) in db && db[ParentKey(b.id)] == IdVal(b.parent)
    && Stored(db, b.id) == Some(RecordOf(b))
    && TxIdsKey(b.id) in db && db[TxIdsKey(b.id)] == IdsVal(TxIds(hash, b.txs))
    && forall i :: 0 <= i < |b.txs| ==> HoldsTx(db, hash, b.txs[i])
  }

  predicate HoldsTx(db: Db, hash: Tx -> TxId, tx: Tx) {
    TxKey(hash(tx)) in db && db[TxKey(hash(tx))] == TxVal(tx)
  }

  predicate LinksChild(db: Db, parent: Id, child: Id) {
    ChildKey(parent) in db && db[ChildKey(parent)] == IdVal(child)
  }

  ghost predicate AllHeld(db: Db, hash: Tx -> TxId, chain: seq<Block>) {
    forall i :: 0 <= i < |chain| ==> HoldsBlock(db, hash, chain[i])
  }

  predicate AllLinked(db: Db, chain: seq<Block>) {
    forall i :: 0 < i < |chain| ==> LinksChild(db, chain[i - 1].id, chain[i].id)
  }

  /** The best and oldest records name the two ends, and the chain has no parent in the store. */
  predicate Ends(db: Db, chain: seq<Block>)
    requires chain != []
  {
    && BestKey in db && db[BestKey] == RecVal(RecordOf(chain[|chain| - 1]))
    && OldestKey in db && db[OldestKey] == RecVal(RecordOf(chain[0]))
    && ParentKey(chain[0].parent) !in db
  }

  ghost predicate Represents(db: Db, hash: Tx -> TxId, chain: seq<Block>) {
    chain != [] && Linked(hash, chain) && AllHeld(db, hash, chain) && AllLinked(db, chain) && Ends(db, chain)
  }

  /** `b` is a block that may come next on top of `chain`. */
  ghost predicate Extends(hash: Tx -> TxId, chain: seq<Block>, b: Block) {
    && NoRepeats(TxIds(hash, b.txs))
    && (chain == [] ==> b.id != b.parent)
    && (chain != [] ==>
          && b.parent == chain[|chain| - 1].id && b.number == chain[|chain| - 1].number + 1
          && b.id != chain[0].parent
          && forall i :: 0 <= i < |chain| ==>
               b.id != chain[i].id && NoShared(TxIds(hash, chain[i].txs), TxIds(hash, b.txs)))
  }

  function Push(chain: seq<Block>, b: Block, depth: nat): seq<Block> {
    var longer := chain + [b];
    if |longer| > depth then longer[1..] else longer
  }

  // ----- lemmas about the store -----

  /** Putting transactions touches their keys only. */
  lemma {:induction false} PutTxsFrame(db: Db, hash: Tx -> TxId, txs: seq<Tx>)
    ensures
      var r := PutTxs(db, hash, txs);
      && (forall k :: k in db ==> k in r)
      && (forall k :: k in r && k !in TxKeys(TxIds(hash, txs)) ==> k in db && r[k] == db[k])
    decreases |txs|
  {
    if txs != [] {
      var db1 := db[TxKey(hash(txs[0])) := TxVal(txs[0])];
      PutTxsFrame(db1, hash, txs[1..]);
      var r := PutTxs(db1, hash, txs[1..]);
      assert r == PutTxs(db, hash, txs);
      assert TxIds(hash, txs) == [hash(txs[0])] + TxIds(hash, txs[1..]);
      assert TxKey(hash(txs[0])) in TxKeys(TxIds(hash, txs));
      assert TxKeys(TxIds(hash, txs[1..])) <= TxKeys(TxIds(hash, txs));
      forall k | k in db ensures k in r {
        assert k in db1;
      }
    }
  }

  lemma {:induction false} PutTxsHolds(db: Db, hash: Tx -> TxId, txs: seq<Tx>, i: nat)
    requires NoRepeats(TxIds(hash, txs)) && i < |txs|
    ensures HoldsTx(PutTxs(db, hash, txs), hash, txs[i])
    decreases |txs|
  {
    var db1 := db[TxKey(hash(txs[0])) := TxVal(txs[0])];
    var rest := TxIds(hash, txs[1..]);
    assert TxIds(hash, txs) == [hash(txs[0])] + rest;
    assert NoRepeats(rest) by {
      forall a, b | 0 <= a < b < |rest| ensures rest[a] != rest[b] {
        assert TxIds(hash, txs)[a + 1] != TxIds(hash, txs)[b + 1];
      }
    }
    if i > 0 {
      PutTxsHolds(db1, hash, txs[1..], i - 1);
    } else {
      PutTxsFrame(db1, hash, txs[1..]);
      assert TxKey(hash(txs[0])) in db1;
      assert hash(txs[0]) !in rest by {
        forall a | 0 <= a < |rest| ensures rest[a] != hash(txs[0]) {
          assert TxIds(hash, txs)[0] != TxIds(hash, txs)[a + 1];
        }
      }
    }
  }

  /** Putting a block touches its own keys, its parent's link, its transactions and the best block. */
  lemma PutBlockFrame(db: Db, hash: Tx -> TxId, b: Block)
    ensures
      var r := PutBlock(db, hash, b);
      && (forall k :: k in r && k !in OwnKeys(b.id) - {ChildKey(b.id)} + {ChildKey(b.parent), BestKey} && k !in TxKeys(TxIds(hash, b.txs))
            ==> k in db && r[k] == db[k])
      && (forall k :: k in db ==> k in r)
  {
    var db0 := PutOwn(db, hash, b);
    PutTxsFrame(db0, hash, b.txs);
    var r := PutBlock(db, hash, b);
    forall k | k in db ensures k in r {
      assert k in db0;
    }
  }

  /** A block just put is held, linked from its parent and best; other keys are as before. */
  lemma PutBlockHolds(db: Db, hash: Tx -> TxId, b: Block)
    requires NoRepeats(TxIds(hash, b.txs)) && b.id != b.parent
    ensures
      var r := PutBlock(db, hash, b);
      && HoldsBlock(r, hash, b) && LinksChild(r, b.parent, b.id) && r[BestKey] == RecVal(RecordOf(b))
      && (forall k :: k in r && k !in OwnKeys(b.id) - {ChildKey(b.id)} + {ChildKey(b.parent), BestKey} && k !in TxKeys(TxIds(hash, b.txs))
            ==> k in db && r[k] == db[k])
      && (forall k :: k in db ==> k in r)
  {
    var db0 := PutOwn(db, hash, b);
    PutTxsFrame(db0, hash, b.txs);
    assert ParentKey(b.id) in db0 && ChildKey(b.parent) in db0 && SlotKey(b.id) in db0 && NumberKey(b.id) in db0 && TxIdsKey(b.id) in db0;
    var r := PutBlock(db, hash, b);
    forall i | 0 <= i < |b.txs| ensures HoldsTx(r, hash, b.txs[i]) {
      PutTxsHolds(db0, hash, b.txs, i);
    }
    PutBlockFrame(db, hash, b);
  }

  ghost predicate KeepsAllBut(db: Db, r: Db, gone: set<Key>) {
    forall k :: k in db && k !in gone ==> k in r && r[k] == db[k]
  }

  /** Losing the keys of other blocks and the two records leaves a block held. */
  lemma HoldsApart(db: Db, r: Db, hash: Tx -> TxId, c: Block, own: set<Key>, ids: seq<TxId>)
    requires HoldsBlock(db, hash, c) && KeepsAllBut(db, r, own + TxKeys(ids) + {BestKey, OldestKey})
    requires own !! OwnKeys(c.id) - {ChildKey(c.id)} && NoShared(TxIds(hash, c.txs), ids) && forall k :: k in own ==> !k.TxKey?
    ensures HoldsBlock(r, hash, c)
  {
    forall i | 0 <= i < |c.txs| ensures HoldsTx(r, hash, c.txs[i]) {
      assert HoldsTx(db, hash, c.txs[i]);
      assert TxIds(hash, c.txs)[i] == hash(c.txs[i]);
      assert TxKey(hash(c.txs[i])) !in TxKeys(ids);
    }
    var needed := OwnKeys(c.id) - {ChildKey(c.id)};
    assert ParentKey(c.id) in needed && SlotKey(c.id) in needed && NumberKey(c.id) in needed && TxIdsKey(c.id) in needed;
  }

  // ----- appending -----

  lemma LinkedExtended(hash: Tx -> TxId, chain: seq<Block>, b: Block)
    requires Linked(hash, chain) && Extends(hash, chain, b) && chain != []
    ensures Linked(hash, chain + [b])
  {
    var longer := chain + [b];
    forall i | 0 < i < |longer|
      ensures longer[i].parent == longer[i - 1].id && longer[i].number == longer[i - 1].number + 1
    {
    }
    forall i, j | 0 <= i < j < |longer|
      ensures longer[i].id != longer[j].id && NoShared(TxIds(hash, longer[i].txs), TxIds(hash, longer[j].txs))
    {
      assert longer[i] == chain[i];
    }
    forall i | 0 <= i < |longer| ensures NoRepeats(TxIds(hash, longer[i].txs)) && longer[i].id != longer[0].parent {
    }
  }

  lemma LinkedDropped(hash: Tx -> TxId, chain: seq<Block>)
    requires Linked(hash, chain) && |chain| > 1
    ensures Linked(hash, chain[1..])
  {
    var rest := chain[1..];
    forall i | 0 < i < |rest|
      ensures rest[i].parent == rest[i - 1].id && rest[i].number == rest[i - 1].number + 1
    {
      assert rest[i] == chain[i + 1] && rest[i - 1] == chain[i];
    }
    assert rest[0].parent == chain[0].id;
  }

  lemma LinkedPopped(hash: Tx -> TxId, chain: seq<Block>)
    requires Linked(hash, chain) && |chain| > 1
    ensures Linked(hash, chain[..|chain| - 1])
  {
  }

  lemma {:induction false} NumbersCount(hash: Tx -> TxId, chain: seq<Block>, i: nat)
    requires Linked(hash, chain) && i < |chain|
    ensures chain[i].number == chain[0].number + i
  {
    if i > 0 {
      NumbersCount(hash, chain, i - 1);
    }
  }

  lemma PutKeepsOne(db: Db, hash: Tx -> TxId, c: Block, b: Block)
    requires HoldsBlock(db, hash, c) && b.id != b.parent && NoRepeats(TxIds(hash, b.txs))
    requires b.id != c.id && NoShared(TxIds(hash, c.txs), TxIds(hash, b.txs))
    ensures HoldsBlock(PutBlock(db, hash, b), hash, c)
  {
    PutBlockKeeps(db, hash, b);
    HoldsApart(db, PutBlock(db, hash, b), hash, c, OwnKeys(b.id) - {ChildKey(b.id)} + {ChildKey(b.parent)}, TxIds(hash, b.txs));
  }

  lemma PutBlockKeeps(db: Db, hash: Tx -> TxId, b: Block)
    requires NoRepeats(TxIds(hash, b.txs)) && b.id != b.parent
    ensures KeepsAllBut(db, PutBlock(db, hash, b),
                        OwnKeys(b.id) - {ChildKey(b.id)} + {ChildKey(b.parent)} + TxKeys(TxIds(hash, b.txs)) + {BestKey, OldestKey})
  {
    PutBlockHolds(db, hash, b);
    var r := PutBlock(db, hash, b);
    var own := OwnKeys(b.id) - {ChildKey(b.id)} + {ChildKey(b.parent)};
    forall k | k in db && k !in own + TxKeys(TxIds(hash, b.txs)) + {BestKey, OldestKey} ensures k in r && r[k] == db[k] {
      assert k in r;
    }
  }

  lemma PutKeepsHeld(db: Db, hash: Tx -> TxId, chain: seq<Block>, b: Block)
    requires AllHeld(db, hash, chain) && Extends(hash, chain, b) && chain != [] && b.id != b.parent
    ensures AllHeld(PutBlock(db, hash, b), hash, chain + [b])
  {
    var r := PutBlock(db, hash, b);
    forall i | 0 <= i < |chain + [b]| ensures HoldsBlock(r, hash, (chain + [b])[i]) {
      if i < |chain| {
        PutKeepsOne(db, hash, chain[i], b);
      } else {
        PutBlockHolds(db, hash, b);
      }
    }
  }

  lemma PutKeepsLinks(db: Db, hash: Tx -> TxId, chain: seq<Block>, b: Block)
    requires chain != [] && AllLinked(db, chain) && b.parent == chain[|chain| - 1].id && b.id != b.parent
    requires NoRepeats(TxIds(hash, b.txs))
    requires forall i :: 0 <= i < |chain| - 1 ==> chain[i].id != chain[|chain| - 1].id
    ensures AllLinked(PutBlock(db, hash, b), chain + [b])
  {
    var r := PutBlock(db, hash, b);
    PutBlockHolds(db, hash, b);
    var longer := chain + [b];
    forall i | 0 < i < |longer| ensures LinksChild(r, longer[i - 1].id, longer[i].id) {
      if i < |chain| {
        assert LinksChild(db, chain[i - 1].id, chain[i].id);
      }
    }
  }

  lemma PutMovesEnds(db: Db, hash: Tx -> TxId, chain: seq<Block>, b: Block)
    requires chain != [] && Ends(db, chain) && b.id != b.parent && b.id != chain[0].parent
    requires NoRepeats(TxIds(hash, b.txs))
    ensures Ends(PutBlock(db, hash, b), chain + [b])
  {
    PutBlockHolds(db, hash, b);
    var r := PutBlock(db, hash, b);
    assert OldestKey in r && r[OldestKey] == db[OldestKey];
    assert ParentKey(chain[0].parent) !in r;
  }

  lemma TopIsNew(hash: Tx -> TxId, chain: seq<Block>, b: Block)
    requires Linked(hash, chain) && chain != [] && Extends(hash, chain, b)
    ensures b.parent == chain[|chain| - 1].id && b.id != b.parent && b.id != chain[0].parent
    ensures forall i :: 0 <= i < |chain| - 1 ==> chain[i].id != chain[|chain| - 1].id
  {
  }

  /** Everything but the bound: the new block is on top of all the old ones. */
  lemma PutOnTop(db: Db, hash: Tx -> TxId, chain: seq<Block>, b: Block)
    requires Represents(db, hash, chain) && Extends(hash, chain, b)
    ensures Represents(PutBlock(db, hash, b), hash, chain + [b])
  {
    TopIsNew(hash, chain, b);
    LinkedExtended(hash, chain, b);
    PutKeepsHeld(db, hash, chain, b);
    PutKeepsLinks(db, hash, chain, b);
    PutMovesEnds(db, hash, chain, b);
  }

  /** The first block shares neither id nor transactions with a later one. */
  lemma FirstApart(hash: Tx -> TxId, chain: seq<Block>, i: nat)
    requires Linked(hash, chain) && 0 < i < |chain|
    ensures chain[0].id != chain[i].id && NoShared(TxIds(hash, chain[i].txs), TxIds(hash, chain[0].txs))
  {
  }

  /** What a store that lost a block's keys still holds. */
  lemma DropKeepsHeld(db: Db, r: Db, hash: Tx -> TxId, chain: seq<Block>)
    requires Linked(hash, chain) && chain != [] && AllHeld(db, hash, chain)
    requires KeepsAllBut(db, r, OwnKeys(chain[0].id) + TxKeys(TxIds(hash, chain[0].txs)) + {BestKey, OldestKey})
    ensures AllHeld(r, hash, chain[1..])
  {
    var rest := chain[1..];
    forall i | 0 <= i < |rest| ensures HoldsBlock(r, hash, rest[i]) {
      assert rest[i] == chain[i + 1];
      assert HoldsBlock(db, hash, chain[i + 1]);
      FirstApart(hash, chain, i + 1);
      HoldsApart(db, r, hash, rest[i], OwnKeys(chain[0].id), TxIds(hash, chain[0].txs));
    }
  }

  lemma DropKeepsLinks(db: Db, r: Db, hash: Tx -> TxId, chain: seq<Block>)
    requires Linked(hash, chain) && chain != [] && AllLinked(db, chain)
    requires forall id :: ChildKey(id) in db && id != chain[0].id ==> ChildKey(id) in r && r[ChildKey(id)] == db[ChildKey(id)]
    ensures AllLinked(r, chain[1..])
  {
    var rest := chain[1..];
    forall i | 0 < i < |rest| ensures LinksChild(r, rest[i - 1].id, rest[i].id) {
      assert rest[i] == chain[i + 1] && rest[i - 1] == chain[i];
      assert LinksChild(db, chain[(i + 1) - 1].id, chain[i + 1].id);
      FirstApart(hash, chain, i);
    }
  }

  /** What evicting the first of several blocks computes. */
  lemma EvictResult(db: Db, hash: Tx -> TxId, chain: seq<Block>)
    requires |chain| > 1 && AllHeld(db, hash, chain) && AllLinked(db, chain)
    ensures
      Evict(db, chain[0].id) == Some(db[OldestKey := RecVal(RecordOf(chain[1]))]
                                       - TxKeys(TxIds(hash, chain[0].txs)) - OwnKeys(chain[0].id))
  {
    assert LinksChild(db, chain[1 - 1].id, chain[1].id);
    assert HoldsBlock(db, hash, chain[1]) && HoldsBlock(db, hash, chain[0]);
  }

  lemma EvictMovesEnds(db: Db, hash: Tx -> TxId, chain: seq<Block>)
    requires |chain| > 1 && Ends(db, chain) && chain[1].parent == chain[0].id
    ensures Ends(db[OldestKey := RecVal(RecordOf(chain[1]))] - TxKeys(TxIds(hash, chain[0].txs)) - OwnKeys(chain[0].id), chain[1..])
  {
  }

  /** Eviction deletes the first block and nothing else of the chain. */
  lemma EvictsFirst(db: Db, hash: Tx -> TxId, chain: seq<Block>)
    requires Represents(db, hash, chain) && |chain| > 1
    ensures
      var r := Evict(db, chain[0].id);
      r.Some? && Represents(r.value, hash, chain[1..])
  {
    EvictResult(db, hash, chain);
    var r := Evict(db, chain[0].id).value;
    DropKeepsHeld(db, r, hash, chain);
    DropKeepsLinks(db, r, hash, chain);
    LinkedDropped(hash, chain);
    EvictMovesEnds(db, hash, chain);
  }

  /** The key belongs to the block: one of its five own records, or one of its transactions. */
  ghost predicate KeyOf(hash: Tx -> TxId, b: Block, k: Key) {
    || k == ParentKey(b.id) || k == ChildKey(b.id) || k == SlotKey(b.id) || k == NumberKey(b.id) || k == TxIdsKey(b.id)
    || IsTxKey(hash, b, k)
  }

  ghost predicate IsTxKey(hash: Tx -> TxId, b: Block, k: Key) {
    exists i :: 0 <= i < |b.txs| && k == TxKey(hash(b.txs[i]))
  }

  lemma TxKeyIff(hash: Tx -> TxId, b: Block, k: Key)
    ensures k in TxKeys(TxIds(hash, b.txs)) <==> IsTxKey(hash, b, k)
  {
    var ids := TxIds(hash, b.txs);
    if i :| 0 <= i < |b.txs| && k == TxKey(hash(b.txs[i])) { assert ids[i] in ids; }
  }

  /** An eviction deletes exactly what belongs to the first block and makes the second one the oldest. */
  lemma EvictionExact(db: Db, hash: Tx -> TxId, chain: seq<Block>, k: Key)
    requires Represents(db, hash, chain) && |chain| > 1
    ensures
      var r := Evict(db, chain[0].id);
      && r.Some?
      && (KeyOf(hash, chain[0], k) ==> k !in r.value)
      && (!KeyOf(hash, chain[0], k) && k != OldestKey ==> (k in r.value <==> k in db) && (k in db ==> r.value[k] == db[k]))
      && OldestKey in r.value && r.value[OldestKey] == RecVal(RecordOf(chain[1]))
  {
    EvictResult(db, hash, chain);
    TxKeyIff(hash, chain[0], k);
  }

  /** The new block is one more than the chain is long above the oldest one. */
  lemma AppendDistance(db: Db, hash: Tx -> TxId, chain: seq<Block>, b: Block)
    requires Represents(PutBlock(db, hash, b), hash, chain + [b]) && chain != []
    ensures
      var db1 := PutBlock(db, hash, b);
      OldestKey in db1 && db1[OldestKey] == RecVal(RecordOf(chain[0])) && b.number - chain[0].number == |chain|
  {
    NumbersCount(hash, chain + [b], |chain|);
  }

  lemma AppendAtDepth(db: Db, depth: nat, hash: Tx -> TxId, chain: seq<Block>, b: Block)
    requires Represents(PutBlock(db, hash, b), hash, chain + [b]) && |chain| == depth > 0
    ensures
      var r := Append(db, depth, hash, b);
      r.Some? && Represents(r.value, hash, (chain + [b])[1..])
  {
    AppendDistance(db, hash, chain, b);
    EvictsFirst(PutBlock(db, hash, b), hash, chain + [b]);
  }

  lemma AppendBelowDepth(db: Db, depth: nat, hash: Tx -> TxId, chain: seq<Block>, b: Block)
    requires Represents(PutBlock(db, hash, b), hash, chain + [b]) && 0 < |chain| < depth
    ensures Append(db, depth, hash, b) == Some(PutBlock(db, hash, b))
  {
    AppendDistance(db, hash, chain, b);
  }

  /** Appending to a represented chain never panics and gives the bounded push. */
  lemma AppendPushes(db: Db, depth: nat, hash: Tx -> TxId, chain: seq<Block>, b: Block)
    requires Represents(db, hash, chain) && Extends(hash, chain, b) && |chain| <= depth
    ensures
      var r := Append(db, depth, hash, b);
      r.Some? && Represents(r.value, hash, Push(chain, b, depth)) && |Push(chain, b, depth)| <= depth
  {
    PutOnTop(db, hash, chain, b);
    if |chain| == depth {
      AppendAtDepth(db, depth, hash, chain, b);
    } else {
      AppendBelowDepth(db, depth, hash, chain, b);
    }
  }

  lemma HoldsWithOldest(db: Db, hash: Tx -> TxId, b: Block, rec: Record)
    requires HoldsBlock(db, hash, b)
    ensures HoldsBlock(db[OldestKey := RecVal(rec)], hash, b)
  {
    forall i | 0 <= i < |b.txs| ensures HoldsTx(db[OldestKey := RecVal(rec)], hash, b.txs[i]) {
      assert HoldsTx(db, hash, b.txs[i]);
    }
  }

  /** The first block put into an empty store: nothing but its own keys is there. */
  lemma FirstPut(hash: Tx -> TxId, b: Block)
    requires Extends(hash, [], b)
    ensures
      var r := PutBlock(map[], hash, b);
      && HoldsBlock(r, hash, b) && BestKey in r && r[BestKey] == RecVal(RecordOf(b))
      && OldestKey !in r && ParentKey(b.parent) !in r && forall id :: id != b.parent ==> ChildKey(id) !in r
  {
    PutBlockHolds(map[], hash, b);
  }

  lemma OneRepresented(db: Db, hash: Tx -> TxId, b: Block)
    requires HoldsBlock(db, hash, b) && NoRepeats(TxIds(hash, b.txs)) && b.id != b.parent
    requires BestKey in db && db[BestKey] == RecVal(RecordOf(b)) && ParentKey(b.parent) !in db
    ensures Represents(db[OldestKey := RecVal(RecordOf(b))], hash, [b])
  {
    HoldsWithOldest(db, hash, b, RecordOf(b));
  }

  lemma FirstAppend(depth: nat, hash: Tx -> TxId, b: Block)
    requires Extends(hash, [], b) && depth > 0
    ensures Append(map[], depth, hash, b) == Some(PutBlock(map[], hash, b)[OldestKey := RecVal(RecordOf(b))])
    ensures
      var r := Append(map[], depth, hash, b);
      Represents(r.value, hash, Push([], b, depth)) && Push([], b, depth) == [b]
  {
    FirstPut(hash, b);
    OneRepresented(PutBlock(map[], hash, b), hash, b);
    assert Push([], b, depth) == [b];
  }

  // ----- taking -----

  /** Distinct stored transactions come out in order and only their keys are gone. */
  lemma {:induction false} TakeTxsReads(db: Db, hash: Tx -> TxId, txs: seq<Tx>)
    requires NoRepeats(TxIds(hash, txs)) && forall i :: 0 <= i < |txs| ==> HoldsTx(db, hash, txs[i])
    ensures TakeTxs(db, TxIds(hash, txs)) == Some((txs, db - TxKeys(TxIds(hash, txs))))
    decreases |txs|
  {
    var ids := TxIds(hash, txs);
    if txs == [] {
      assert db - TxKeys(ids) == db;
    } else {
      var rest := TxIds(hash, txs[1..]);
      var db1 := db - {TxKey(ids[0])};
      assert ids == [hash(txs[0])] + rest;
      assert ids[1..] == rest;
      assert NoRepeats(rest) by {
        forall a, b | 0 <= a < b < |rest| ensures rest[a] != rest[b] {
          assert ids[a + 1] != ids[b + 1];
        }
      }
      forall i | 0 <= i < |txs[1..]| ensures HoldsTx(db1, hash, txs[1..][i]) {
        assert HoldsTx(db, hash, txs[i + 1]);
        assert ids[0] != ids[i + 1];
      }
      TakeTxsReads(db1, hash, txs[1..]);
      assert HoldsTx(db, hash, txs[0]);
      assert [txs[0]] + txs[1..] == txs;
      assert TxKeys(ids) == {TxKey(ids[0])} + TxKeys(rest);
      assert db1 - TxKeys(rest) == db - TxKeys(ids);
    }
  }

  predicate TxStored(db: Db, id: TxId) {
    TxKey(id) in db && db[TxKey(id)].TxVal?
  }

  /** For any store: reading and deleting goes through exactly when every transaction is there and none is named twice. */
  lemma {:induction false} TakeTxsIff(db: Db, ids: seq<TxId>)
    ensures TakeTxs(db, ids).Some? <==> NoRepeats(ids) && forall i :: 0 <= i < |ids| ==> TxStored(db, ids[i])
    ensures TakeTxs(db, ids).Some? ==> TakeTxs(db, ids).value.1 == db - TxKeys(ids)
    decreases |ids|
  {
    if ids == [] {
      assert db - TxKeys(ids) == db;
    } else {
      var db1, rest := db - {TxKey(ids[0])}, ids[1..];
      TakeTxsIff(db1, rest);
      assert ids == [ids[0]] + rest;
      TxsApart(db, ids);
      assert TxKeys(ids) == {TxKey(ids[0])} + TxKeys(rest);
    }
  }

  lemma TxsApart(db: Db, ids: seq<TxId>)
    requires ids != []
    ensures
      (NoRepeats(ids) && forall i :: 0 <= i < |ids| ==> TxStored(db, ids[i])) <==>
      TxStored(db, ids[0]) && NoRepeats(ids[1..]) &&
      forall i :: 0 <= i < |ids[1..]| ==> TxStored(db - {TxKey(ids[0])}, ids[1..][i])
  {
    var rest, db1 := ids[1..], db - {TxKey(ids[0])};
    if NoRepeats(ids) && forall i :: 0 <= i < |ids| ==> TxStored(db, ids[i]) {
      forall i | 0 <= i < |rest| ensures TxStored(db1, rest[i]) { assert TxStored(db, ids[i + 1]) && ids[0] != ids[i + 1]; }
      forall a, b | 0 <= a < b < |rest| ensures rest[a] != rest[b] { assert ids[a + 1] != ids[b + 1]; }
    }
    if TxStored(db, ids[0]) && NoRepeats(rest) && forall i :: 0 <= i < |rest| ==> TxStored(db1, rest[i]) {
      forall i | 0 <= i < |ids| ensures TxStored(db, ids[i]) { if i > 0 { assert TxStored(db1, rest[i - 1]); } }
      forall a, b | 0 <= a < b < |ids| ensures ids[a] != ids[b] {
        assert TxStored(db1, rest[b - 1]);
        if a > 0 { assert rest[a - 1] != rest[b - 1]; }
      }
    }
  }

  /** The best block can be put together from the store, and so can the record of its parent if that is there. */
  ghost predicate Takeable(db: Db, best: Record) {
    && TxIdsKey(best.id) in db && db[TxIdsKey(best.id)].IdsVal?
    && NoRepeats(db[TxIdsKey(best.id)].ids) && (forall i :: 0 <= i < |db[TxIdsKey(best.id)].ids| ==> TxStored(db, db[TxIdsKey(best.id)].ids[i]))
    && ParentKey(best.id) in db && db[ParentKey(best.id)].IdVal?
    && (ParentKey(db[ParentKey(best.id)].id) in db ==> Stored(db, db[ParentKey(best.id)].id).Some?)
  }

  /** For any store: a take hands out nothing exactly without a best record or without its block's transaction list, and
      a block exactly when everything it needs is there; otherwise it panics. */
  lemma TakeIff(db: Db)
    ensures Take(db).Nothing? <==> BestKey !in db || (db[BestKey].RecVal? && TxIdsKey(db[BestKey].rec.id) !in db)
    ensures Take(db).Took? <==> BestKey in db && db[BestKey].RecVal? && Takeable(db, db[BestKey].rec)
  {
    if BestKey in db && db[BestKey].RecVal? {
      var best := db[BestKey].rec;
      if TxIdsKey(best.id) in db && db[TxIdsKey(best.id)].IdsVal? { TakeTxsIff(db, db[TxIdsKey(best.id)].ids); }
    }
  }

  ghost predicate DrainedDb(db: Db) {
    BestKey !in db
  }

  lemma LastApart(hash: Tx -> TxId, chain: seq<Block>, i: nat)
    requires Linked(hash, chain) && i < |chain| - 1
    ensures NoShared(TxIds(hash, chain[i].txs), TxIds(hash, chain[|chain| - 1].txs))
  {
  }

  /** The store after the last block's transactions and the best record are gone. */
  function Popped(db: Db, hash: Tx -> TxId, last: Block): Db {
    db - TxKeys(TxIds(hash, last.txs)) - {BestKey}
  }

  lemma PopKeepsHeld(db: Db, r: Db, hash: Tx -> TxId, chain: seq<Block>)
    requires Linked(hash, chain) && chain != [] && AllHeld(db, hash, chain)
    requires KeepsAllBut(db, r, {} + TxKeys(TxIds(hash, chain[|chain| - 1].txs)) + {BestKey, OldestKey})
    ensures AllHeld(r, hash, chain[..|chain| - 1])
  {
    var front := chain[..|chain| - 1];
    forall i | 0 <= i < |front| ensures HoldsBlock(r, hash, front[i]) {
      assert HoldsBlock(db, hash, chain[i]);
      LastApart(hash, chain, i);
      HoldsApart(db, r, hash, front[i], {}, TxIds(hash, chain[|chain| - 1].txs));
    }
  }

  /** What a take computes: the last block, and its parent's record if the chain goes on. */
  lemma TakeResult(db: Db, hash: Tx -> TxId, chain: seq<Block>)
    requires Represents(db, hash, chain)
    ensures
      var last := chain[|chain| - 1];
      Take(db) == Took(last, if |chain| == 1 then Popped(db, hash, last)
                             else Popped(db, hash, last)[BestKey := RecVal(RecordOf(chain[|chain| - 2]))])
  {
    var last := chain[|chain| - 1];
    assert HoldsBlock(db, hash, last);
    assert NoRepeats(TxIds(hash, last.txs));
    TakeTxsReads(db, hash, last.txs);
    if |chain| > 1 {
      assert last.parent == chain[|chain| - 2].id;
      assert HoldsBlock(db, hash, chain[|chain| - 2]);
      assert Stored(Popped(db, hash, last), last.parent) == Some(RecordOf(chain[|chain| - 2]));
    }
  }

  lemma PopKeepsLinks(db: Db, r: Db, chain: seq<Block>)
    requires chain != [] && AllLinked(db, chain)
    requires forall id :: ChildKey(id) in db ==> ChildKey(id) in r && r[ChildKey(id)] == db[ChildKey(id)]
    ensures AllLinked(r, chain[..|chain| - 1])
  {
    var front := chain[..|chain| - 1];
    forall i | 0 < i < |front| ensures LinksChild(r, front[i - 1].id, front[i].id) {
      assert LinksChild(db, chain[i - 1].id, chain[i].id);
    }
  }

  lemma PopMovesEnds(db: Db, hash: Tx -> TxId, chain: seq<Block>)
    requires |chain| > 1 && Ends(db, chain)
    ensures Ends(Popped(db, hash, chain[|chain| - 1])[BestKey := RecVal(RecordOf(chain[|chain| - 2]))], chain[..|chain| - 1])
  {
  }

  /** Taking returns exactly the last block and leaves the chain without it. */
  lemma TakePops(db: Db, hash: Tx -> TxId, chain: seq<Block>)
    requires Represents(db, hash, chain)
    ensures
      var r := Take(db);
      && r.Took? && r.block == chain[|chain| - 1]
      && (if |chain| == 1 then DrainedDb(r.db) else Represents(r.db, hash, chain[..|chain| - 1]))
  {
    TakeResult(db, hash, chain);
    if |chain| > 1 {
      LinkedPopped(hash, chain);
      PopKeepsHeld(db, Take(db).db, hash, chain);
      PopKeepsLinks(db, Take(db).db, chain);
      PopMovesEnds(db, hash, chain);
    }
  }

  /** A take deletes exactly the last block's transactions and moves the best record to the block before, if any. */
  lemma TakeExact(db: Db, hash: Tx -> TxId, chain: seq<Block>, k: Key)
    requires Represents(db, hash, chain)
    ensures
      var r, last := Take(db), chain[|chain| - 1];
      && r.Took? && r.block == last
      && (IsTxKey(hash, last, k) ==> k !in r.db)
      && (!IsTxKey(hash, last, k) && k != BestKey ==> (k in r.db <==> k in db) && (k in db ==> r.db[k] == db[k]))
      && (BestKey in r.db <==> |chain| > 1)
      && (|chain| > 1 ==> r.db[BestKey] == RecVal(RecordOf(chain[|chain| - 2])))
  {
    TakeResult(db, hash, chain);
    TxKeyIff(hash, chain[|chain| - 1], k);
  }

  // ----- whole runs -----

  datatype Op = AppendOp(block: Block) | TakeOp

  /** The specification's state: nothing yet, a chain, or a cache whose every block was taken. */
  datatype Spec = Fresh | Holding(chain: seq<Block>) | Drained

  ghost predicate Allowed(hash: Tx -> TxId, spec: Spec, op: Op) {
    op.AppendOp? ==> !spec.Drained? && Extends(hash, if spec.Holding? then spec.chain else [], op.block)
  }

  function SpecStep(depth: nat, spec: Spec, op: Op): Spec {
    match op
    case AppendOp(b) => Holding(Push(if spec.Holding? then spec.chain else [], b, depth))
    case TakeOp =>
      if !spec.Holding? then spec
      else if |spec.chain| <= 1 then Drained
      else Holding(spec.chain[..|spec.chain| - 1])
  }

  /** What a take hands out according to the specification. */
  function SpecTaken(spec: Spec): Option<Block> {
    if spec.Holding? && spec.chain != [] then Some(spec.chain[|spec.chain| - 1]) else None
  }

  ghost predicate Refines(db: Db, depth: nat, hash: Tx -> TxId, spec: Spec) {
    match spec
    case Fresh => db == map[]
    case Holding(chain) => Represents(db, hash, chain) && |chain| <= depth
    case Drained => DrainedDb(db)
  }

  function DbStep(db: Db, depth: nat, hash: Tx -> TxId, op: Op): Option<Db> {
    match op
    case AppendOp(b) => Append(db, depth, hash, b)
    case TakeOp => match Take(db) { case Panic => None case Nothing => Some(db) case Took(_, r) => Some(r) }
  }

  /** One allowed operation does not panic and does what the bounded stack does. */
  lemma StepRefines(db: Db, depth: nat, hash: Tx -> TxId, spec: Spec, op: Op)
    requires depth > 0 && Refines(db, depth, hash, spec) && Allowed(hash, spec, op)
    ensures
      var r := DbStep(db, depth, hash, op);
      r.Some? && Refines(r.value, depth, hash, SpecStep(depth, spec, op))
    ensures op.TakeOp? ==> SpecTaken(spec) == if Take(db).Took? then Some(Take(db).block) else None
  {
    match op
    case AppendOp(b) =>
      if spec.Holding? {
        AppendPushes(db, depth, hash, spec.chain, b);
      } else {
        FirstAppend(depth, hash, b);
      }
    case TakeOp =>
      if spec.Holding? {
        TakePops(db, hash, spec.chain);
      }
  }

  ghost predicate AllowedRun(depth: nat, hash: Tx -> TxId, spec: Spec, ops: seq<Op>)
    decreases |ops|
  {
    ops == [] || (Allowed(hash, spec, ops[0]) && AllowedRun(depth, hash, SpecStep(depth, spec, ops[0]), ops[1..]))
  }

  function RunSpec(depth: nat, spec: Spec, ops: seq<Op>): Spec
    decreases |ops|
  {
    if ops == [] then spec else RunSpec(depth, SpecStep(depth, spec, ops[0]), ops[1..])
  }

  function RunDb(db: Db, depth: nat, hash: Tx -> TxId, ops: seq<Op>): Option<Db>
    decreases |ops|
  {
    if ops == [] then Some(db)
    else
      var next := DbStep(db, depth, hash, ops[0]);
      if next.None? then None else RunDb(next.value, depth, hash, ops[1..])
  }

  /** Over every allowed run the store never panics and represents the bounded stack. */
  lemma {:induction false} RunRefines(db: Db, depth: nat, hash: Tx -> TxId, spec: Spec, ops: seq<Op>)
    requires depth > 0 && Refines(db, depth, hash, spec) && AllowedRun(depth, hash, spec, ops)
    ensures
      var r := RunDb(db, depth, hash, ops);
      r.Some? && Refines(r.value, depth, hash, RunSpec(depth, spec, ops))
    decreases |ops|
  {
    if ops != [] {
      StepRefines(db, depth, hash, spec, ops[0]);
      RunRefines(DbStep(db, depth, hash, ops[0]).value, depth, hash, SpecStep(depth, spec, ops[0]), ops[1..]);
    }
  }

  // ----- against the unbounded chain -----

  function UnboundedStep(chain: seq<Block>, op: Op): seq<Block> {
    match op
    case AppendOp(b) => chain + [b]
    case TakeOp => if chain == [] then [] else chain[..|chain| - 1]
  }

  /** The chain a node with unlimited memory would hold. */
  function Unbounded(chain: seq<Block>, ops: seq<Op>): seq<Block>
    decreases |ops|
  {
    if ops == [] then chain else Unbounded(UnboundedStep(chain, ops[0]), ops[1..])
  }

  ghost predicate IsSuffix(short: seq<Block>, long: seq<Block>) {
    |short| <= |long| && long[|long| - |short|..] == short
  }

  lemma SuffixPush(short: seq<Block>, long: seq<Block>, b: Block, depth: nat)
    requires IsSuffix(short, long)
    ensures IsSuffix(Push(short, b, depth), long + [b])
  {
    var n := |long| - |short|;
    assert (long + [b])[n..] == long[n..] + [b];
    assert (long + [b])[n + 1..] == (long + [b])[n..][1..];
  }

  lemma SuffixPop(short: seq<Block>, long: seq<Block>)
    requires IsSuffix(short, long) && short != []
    ensures IsSuffix(short[..|short| - 1], long[..|long| - 1])
  {
    var n := |long| - |short|;
    assert long[..|long| - 1][n..] == long[n..][..|short| - 1];
  }

  /** The specification holds the end of the unbounded chain. */
  ghost predicate HoldsEnd(spec: Spec, full: seq<Block>) {
    (spec.Fresh? ==> full == []) && (spec.Holding? ==> IsSuffix(spec.chain, full))
  }

  lemma StepHoldsEnd(depth: nat, hash: Tx -> TxId, spec: Spec, full: seq<Block>, op: Op)
    requires depth > 0 && Allowed(hash, spec, op) && HoldsEnd(spec, full)
    ensures HoldsEnd(SpecStep(depth, spec, op), UnboundedStep(full, op))
  {
    if op.AppendOp? {
      SuffixPush(if spec.Holding? then spec.chain else [], full, op.block, depth);
    } else if spec.Holding? && spec.chain != [] {
      SuffixPop(spec.chain, full);
    }
  }

  /** The cache always holds a suffix of the unbounded chain, so each take undoes the newest append. */
  lemma {:induction false} CacheIsSuffix(depth: nat, hash: Tx -> TxId, spec: Spec, full: seq<Block>, ops: seq<Op>)
    requires depth > 0 && AllowedRun(depth, hash, spec, ops) && HoldsEnd(spec, full)
    ensures HoldsEnd(RunSpec(depth, spec, ops), Unbounded(full, ops))
    decreases |ops|
  {
    if ops != [] {
      StepHoldsEnd(depth, hash, spec, full, ops[0]);
      CacheIsSuffix(depth, hash, SpecStep(depth, spec, ops[0]), UnboundedStep(full, ops[0]), ops[1..]);
    }
  }

  /** From an empty store, appends alone keep exactly the last `depth` blocks. */
  lemma {:induction false} AppendsKeepLast(depth: nat, chain: seq<Block>, full: seq<Block>, ops: seq<Op>)
    requires depth > 0 && IsSuffix(chain, full) && (|chain| == |full| <= depth || |chain| == depth)
    requires chain != []
    requires forall i :: 0 <= i < |ops| ==> ops[i].AppendOp?
    ensures
      var r := RunSpec(depth, Holding(chain), ops);
      && r.Holding? && IsSuffix(r.chain, Unbounded(full, ops))
      && |r.chain| == if |full| + |ops| <= depth then |full| + |ops| else depth
    decreases |ops|
  {
    if ops != [] {
      var b := ops[0].block;
      SuffixPush(chain, full, b, depth);
      AppendsKeepLast(depth, Push(chain, b, depth), full + [b], ops[1..]);
    }
  }
}
