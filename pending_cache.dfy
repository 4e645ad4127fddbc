/**
 * The pending cache: the timestamp of the pending block being followed
 * (0 while none is) and the hashes of its transactions already processed.
 */
module PendingCache {
  import opened Types

  /** A snapshot of the cache's contents. */
  datatype CacheState = CacheState(timestamp: nat, processed: set<Hash>)

  class PendingBlockData {
    var timestamp: nat
    var processed: set<Hash>

    /** A new cache follows no block and has processed nothing. */
    constructor ()
      ensures timestamp == 0 && processed == {}
    {
      timestamp := 0;
      processed := {};
    }

    function State(): CacheState
      reads this
    {
      CacheState(timestamp, processed)
    }

    /** The timestamp of the followed pending block, 0 while none is followed. */
    function GetTimestamp(): (ts: nat)
      reads this
      ensures ts == State().timestamp
    {
      timestamp
    }

    /** Whether `tx` was already processed for the followed block. */
    predicate IsTxProcessed(tx: Hash): (done: bool)
      reads this
      ensures done <==> tx in State().processed
    {
      tx in processed
    }

    /** Replaces the timestamp; the processed set is left as it is. */
    method SetTimestamp(ts: nat)
      modifies this
      ensures timestamp == ts && processed == old(processed)
    {
      timestamp := ts;
    }

    /** Forgets every processed hash; the timestamp is left as it is. */
    method ClearTxHashes()
      modifies this
      ensures processed == {} && timestamp == old(timestamp)
    {
      processed := {};
    }

    /** Records `tx` as processed. */
    method AddTxAsProcessed(tx: Hash)
      modifies this
      ensures processed == old(processed) + {tx} && timestamp == old(timestamp)
    {
      processed := processed + {tx};
    }
  }
}
