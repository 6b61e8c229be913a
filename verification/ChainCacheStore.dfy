/** The store object: puts, gets and deletes inside a transaction that is committed at the end. */
module ChainCacheStore {
  import opened Prelude
  import opened ChainCache
  import opened ChainCacheRefinement

  class Cache {
    const depth: nat
    const hash: Tx -> TxId
    var db: Db

    constructor (depth: nat, hash: Tx -> TxId)
      ensures this.depth == depth && this.hash == hash && db == map[]
    {
      this.depth, this.hash, db := depth, hash, map[];
    }

    /** `ok` is false exactly where an unwrap panics; the transaction is then not committed. */
    method AppendBlock(b: Block) returns (ok: bool)
      modifies this
      ensures ok <==> Append(old(db), depth, hash, b).Some?
      ensures db == if ok then Append(old(db), depth, hash, b).value else old(db)
    {
      var tx := db;
      tx := tx[ParentKey(b.id) := IdVal(b.parent)];
      tx := tx[ChildKey(b.parent) := IdVal(b.id)];
      tx := tx[SlotKey(b.id) := NumVal(b.slot)];
      tx := tx[NumberKey(b.id) := NumVal(b.number)];
      var ids := TxIds(hash, b.txs);
      tx := tx[TxIdsKey(b.id) := IdsVal(ids)];
      ghost var before := tx;
      for i := 0 to |ids|
        invariant PutTxs(tx, hash, b.txs[i..]) == PutTxs(before, hash, b.txs)
      {
        assert b.txs[i..][0] == b.txs[i] && b.txs[i..][1..] == b.txs[i + 1..];
        tx := tx[TxKey(ids[i]) := TxVal(b.txs[i])];
      }
      tx := tx[BestKey := RecVal(RecordOf(b))];
      assert tx == PutBlock(db, hash, b);
      if OldestKey in tx {
        if !tx[OldestKey].RecVal? || b.number < tx[OldestKey].rec.number {
          return false;
        }
        var oldest := tx[OldestKey].rec;
        if b.number - oldest.number == depth {
          if ChildKey(oldest.id) !in tx || !tx[ChildKey(oldest.id)].IdVal? {
            return false;
          }
          var newOldest := Stored(tx, tx[ChildKey(oldest.id)].id);
          if newOldest.None? || TxIdsKey(oldest.id) !in tx || !tx[TxIdsKey(oldest.id)].IdsVal? {
            return false;
          }
          var gone := tx[TxIdsKey(oldest.id)].ids;
          tx := tx[OldestKey := RecVal(newOldest.value)];
          ghost var full := tx;
          for i := 0 to |gone|
            invariant tx == full - TxKeys(gone[..i])
          {
            assert TxKeys(gone[..i + 1]) == TxKeys(gone[..i]) + {TxKey(gone[i])} by {
              assert gone[..i + 1] == gone[..i] + [gone[i]];
            }
            tx := tx - {TxKey(gone[i])};
          }
          assert gone[..|gone|] == gone;
          tx := tx - {TxIdsKey(oldest.id)};
          tx := tx - {SlotKey(oldest.id)};
          tx := tx - {NumberKey(oldest.id)};
          tx := tx - {ParentKey(oldest.id)};
          tx := tx - {ChildKey(oldest.id)};
          assert tx == full - TxKeys(gone) - OwnKeys(oldest.id);
        }
      } else {
        tx := tx[OldestKey := RecVal(RecordOf(b))];
      }
      db := tx;
      ok := true;
    }

    /** The record of the top of whatever chain the store represents; nothing once it is drained. */
    method GetBestBlock() returns (r: Option<Record>)
      ensures forall chain :: Represents(db, hash, chain) ==> r == Some(RecordOf(chain[|chain| - 1]))
      ensures DrainedDb(db) ==> r == None
    {
      r := if BestKey in db && db[BestKey].RecVal? then Some(db[BestKey].rec) else None;
    }

    method TakeBestBlock() returns (r: Taken)
      modifies this
      ensures r == Take(old(db))
      ensures db == if r.Took? then r.db else old(db)
    {
      if BestKey !in db {
        return Nothing;
      }
      if !db[BestKey].RecVal? {
        return Panic;
      }
      var tx := db;
      var best := tx[BestKey].rec;
      if TxIdsKey(best.id) !in tx {
        return Nothing;
      }
      if !tx[TxIdsKey(best.id)].IdsVal? {
        return Panic;
      }
      var ids := tx[TxIdsKey(best.id)].ids;
      var txs := [];
      ghost var all := TakeTxs(db, ids);
      assert ids[0..] == ids;
      for i := 0 to |ids|
        invariant all.None? <==> TakeTxs(tx, ids[i..]).None?
        invariant all.Some? ==> all.value.0 == txs + TakeTxs(tx, ids[i..]).value.0
        invariant all.Some? ==> all.value.1 == TakeTxs(tx, ids[i..]).value.1
        invariant forall k :: k in db && !k.TxKey? ==> k in tx && tx[k] == db[k]
        invariant forall k :: k in tx ==> k in db
      {
        assert ids[i..][0] == ids[i] && ids[i..][1..] == ids[i + 1..];
        if TxKey(ids[i]) !in tx || !tx[TxKey(ids[i])].TxVal? {
          return Panic;
        }
        txs := txs + [tx[TxKey(ids[i])].tx];
        tx := tx - {TxKey(ids[i])};
      }
      if ParentKey(best.id) !in tx || !tx[ParentKey(best.id)].IdVal? {
        return Panic;
      }
      var parent := tx[ParentKey(best.id)].id;
      tx := tx - {BestKey};
      if ParentKey(parent) in tx {
        var rec := Stored(tx, parent);
        if rec.None? {
          return Panic;
        }
        tx := tx[BestKey := RecVal(rec.value)];
      }
      r := Took(Block(best.id, parent, best.slot, best.number, txs), tx);
      db := tx;
    }
  }
}
