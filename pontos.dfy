/**
 * The orchestrator `Pontos`: its pending cache, the block statuses behind
 * its block manager, and its two public operations, each proved to do what
 * the corresponding specification function (`Tick`, `IndexRange`) says.
 */
module Orchestrator {
  import opened Types
  import opened Pipeline
  import opened Effects
  import opened PendingCache
  import opened PendingTail
  import opened BlockRange

  class Pontos {
    const config: PontosConfig
    const managers: Managers
    const pendingCache: PendingBlockData
    /** The block statuses the block manager keeps in storage. */
    var blockStatus: map<nat, BlockInfo>

    /** A new engine follows no pending block yet. */
    constructor (config: PontosConfig, managers: Managers, blockStatus: map<nat, BlockInfo>)
      ensures this.config == config && this.managers == managers && this.blockStatus == blockStatus
      ensures fresh(pendingCache) && pendingCache.State() == CacheState(0, {})
    {
      this.config := config;
      this.managers := managers;
      this.blockStatus := blockStatus;
      pendingCache := new PendingBlockData();
    }

    /**
     * One iteration of the `index_pending` loop, holding the pending cache
     * throughout. It returns how the iteration ended and what it did.
     */
    method IndexPendingTick(env: TickEnv) returns (outcome: TickOutcome, effects: seq<Effect>)
      modifies pendingCache
      ensures Tick(old(pendingCache.State()), env, managers) == TickResult(outcome, effects, pendingCache.State())
    {
      effects := [];
      if env.pendingBlock.Err? {
        outcome := Fatal(FromAnyhow(env.pendingBlock.error));
        return;
      }
      var ts, txs := env.pendingBlock.value.timestamp, env.pendingBlock.value.txs;
      // Until the real block number is known, the pending timestamp stands for it.
      var blockNumber := ts;
      if pendingCache.GetTimestamp() == 0 {
        pendingCache.SetTimestamp(ts);
      }
      if ts != pendingCache.GetTimestamp() {
        // The followed pending block has sealed: it should now be the latest block.
        if env.blockNumber.Err? {
          outcome := Fatal(FromAnyhow(env.blockNumber.error));
          return;
        }
        blockNumber := env.blockNumber.value;
        if env.latestBlock.Err? {
          outcome := Fatal(FromAnyhow(env.latestBlock.error));
          return;
        }
        var latestTs, latestTxs := env.latestBlock.value.timestamp, env.latestBlock.value.txs;
        if latestTs != pendingCache.GetTimestamp() {
          // Not the block that was followed: drop it and start again at once.
          effects := effects + [CleanBlock(pendingCache.GetTimestamp())];
          var cleaned := env.cleanBlock(pendingCache.GetTimestamp());
          if cleaned.Err? {
            outcome := Fatal(FromStorageError(cleaned.error));
            return;
          }
          pendingCache.SetTimestamp(0);
          pendingCache.ClearTxHashes();
          outcome := Continue;
          return;
        }
        var drained, latestEffects := ProcessLatestTxs(env, blockNumber, latestTs, latestTxs);
        effects := effects + latestEffects;
        if drained.Err? {
          outcome := Fatal(drained.error);
          return;
        }
        effects := effects + [UpdateLastPendingBlock(blockNumber, latestTs)];
        var updated := env.updateLastPendingBlock(blockNumber, latestTs);
        if updated.Err? {
          outcome := Fatal(FromStorageError(updated.error));
          return;
        }
        // Go on with the new pending block without waiting for the next tick.
        pendingCache.SetTimestamp(ts);
        pendingCache.ClearTxHashes();
        blockNumber := ts;
      }
      var pendingEffects := ProcessPendingTxs(env, blockNumber, txs);
      effects := effects + pendingEffects;
      outcome := Sleep;
    }

    /**
     * The loop over the transactions of the sealed latest block: a hash not
     * yet processed has its events fetched and processed at the real block
     * number and the latest timestamp, then is marked processed; the first
     * fetch that fails ends the loop with that error.
     */
    method ProcessLatestTxs(env: TickEnv, blockNumber: nat, latestTs: nat, latestTxs: seq<Hash>)
      returns (result: Result<(), IndexerError>, effects: seq<Effect>)
      modifies pendingCache
      ensures DrainTxs(env, managers, blockNumber, latestTs, true, old(pendingCache.processed), latestTxs) ==
              Drained(effects, pendingCache.processed, result)
      ensures pendingCache.timestamp == old(pendingCache.timestamp)
    {
      effects := [];
      ghost var before := pendingCache.processed;
      var i := 0;
      while i < |latestTxs|
        invariant i <= |latestTxs|
        invariant pendingCache.timestamp == old(pendingCache.timestamp)
        invariant DrainTxs(env, managers, blockNumber, latestTs, true, before, latestTxs[..i]) ==
                  Drained(effects, pendingCache.processed, Ok(()))
      {
        var tx := latestTxs[i];
        assert latestTxs[..i + 1][..i] == latestTxs[..i];
        if !pendingCache.IsTxProcessed(tx) {
          effects := effects + [FetchTxEvents(tx)];
          var fetched := env.txEvents(tx);
          if fetched.Err? {
            // The latest block is sealed: failing to read it is not retried.
            result := Err(FromAnyhow(fetched.error));
            DrainStopsAfterFailure(env, managers, blockNumber, latestTs, true, before, latestTxs, i + 1);
            return;
          }
          var processed, calls := ProcessEvents(managers, fetched.value, blockNumber, latestTs);
          effects := effects + [ProcessedEvents(blockNumber, latestTs, fetched.value, calls)];
          pendingCache.AddTxAsProcessed(tx);
        }
        i := i + 1;
      }
      assert latestTxs[..|latestTxs|] == latestTxs;
      result := Ok(());
    }

    /**
     * The loop over the transactions of the pending block: a hash not yet
     * processed has its events fetched and processed with the cached
     * timestamp, then is marked processed; a fetch that fails leaves the hash
     * unmarked, to be tried again on a later tick, and the loop goes on.
     */
    method ProcessPendingTxs(env: TickEnv, blockNumber: nat, txs: seq<Hash>) returns (effects: seq<Effect>)
      modifies pendingCache
      ensures var d := DrainTxs(env, managers, blockNumber, old(pendingCache.timestamp), false, old(pendingCache.processed), txs);
        effects == d.effects && pendingCache.processed == d.processed
      ensures pendingCache.timestamp == old(pendingCache.timestamp)
    {
      effects := [];
      ghost var before := pendingCache.processed;
      var j := 0;
      while j < |txs|
        invariant j <= |txs|
        invariant pendingCache.timestamp == old(pendingCache.timestamp)
        invariant var d := DrainTxs(env, managers, blockNumber, pendingCache.timestamp, false, before, txs[..j]);
          effects == d.effects && pendingCache.processed == d.processed && d.outcome.Ok?
      {
        var tx := txs[j];
        assert txs[..j + 1][..j] == txs[..j];
        if !pendingCache.IsTxProcessed(tx) {
          effects := effects + [FetchTxEvents(tx)];
          var fetched := env.txEvents(tx);
          if fetched.Ok? {
            var processed, calls := ProcessEvents(managers, fetched.value, blockNumber, pendingCache.GetTimestamp());
            effects := effects + [ProcessedEvents(blockNumber, pendingCache.GetTimestamp(), fetched.value, calls)];
            pendingCache.AddTxAsProcessed(tx);
          }
          // A pending transaction that cannot be read yet is tried again on a later tick.
        }
        j := j + 1;
      }
      assert txs[..|txs|] == txs;
    }

    /**
     * One block of `index_block_range`: the skip query, then the observer
     * notice, the `Processing` write, the block time, the events, the
     * pipeline, the `Terminated` write and the final notice; any error ends
     * the block there.
     */
    method IndexOneBlock(env: RangeEnv, force: bool, n: nat) returns (result: Result<(), IndexerError>, effects: seq<Effect>)
      modifies this
      ensures IndexBlock(config, env, managers, force, old(blockStatus), n) == Step(result, effects, blockStatus)
    {
      effects := [];
      effects := effects + [ShouldSkipIndexing(n)];
      var skip := env.shouldSkipIndexing(blockStatus, n, config.indexerVersion, force);
      if skip.Err? {
        result := Err(FromStorageError(skip.error));
        return;
      }
      if skip.value {
        result := Ok(());
        return;
      }
      effects := effects + [OnBlockProcessing(n)];
      effects := effects + [SetBlockInfo(n, Tagged(config, Processing))];
      var marked := env.setBlockInfo(n, Processing);
      if marked.Err? {
        result := Err(FromStorageError(marked.error));
        return;
      }
      blockStatus := blockStatus[n := Tagged(config, Processing)];
      effects := effects + [BlockTime(n)];
      var blockTs := env.blockTime(n);
      if blockTs.Err? {
        result := Err(FromAnyhow(blockTs.error));
        return;
      }
      effects := effects + [FetchEvents(n)];
      var blockEvents := env.fetchEvents(n);
      if blockEvents.Err? {
        result := Err(FromAnyhow(blockEvents.error));
        return;
      }
      var processed, calls := ProcessEvents(managers, blockEvents.value, n, blockTs.value);
      effects := effects + [ProcessedEvents(n, blockTs.value, blockEvents.value, calls)];
      effects := effects + [SetBlockInfo(n, Tagged(config, Terminated))];
      var terminated := env.setBlockInfo(n, Terminated);
      if terminated.Err? {
        result := Err(FromStorageError(terminated.error));
        return;
      }
      blockStatus := blockStatus[n := Tagged(config, Terminated)];
      effects := effects + [OnTerminated(n)];
      result := Ok(());
    }

    /**
     * `index_block_range`: resolves both ends once, then indexes every block
     * from the first to the last, in ascending order, stopping at the first
     * error.
     */
    method IndexBlockRange(env: RangeEnv, force: bool) returns (result: Result<(), IndexerError>, effects: seq<Effect>)
      requires env.toBlock.Ok? ==> env.toBlock.value < U64_MAX
      modifies this
      ensures IndexRange(config, env, managers, force, old(blockStatus)) == Step(result, effects, blockStatus)
    {
      effects := [];
      if env.fromBlock.Err? {
        result := Err(FromAnyhow(env.fromBlock.error));
        return;
      }
      var current := env.fromBlock.value;
      if env.toBlock.Err? {
        result := Err(FromAnyhow(env.toBlock.error));
        return;
      }
      var last := env.toBlock.value;
      ghost var total := IndexFrom(config, env, managers, force, blockStatus, current, last);
      assert total == IndexRange(config, env, managers, force, old(blockStatus));
      while current <= last
        invariant total.outcome == IndexFrom(config, env, managers, force, blockStatus, current, last).outcome
        invariant total.effects == effects + IndexFrom(config, env, managers, force, blockStatus, current, last).effects
        invariant total.status == IndexFrom(config, env, managers, force, blockStatus, current, last).status
        decreases last + 1 - current as int
      {
        ghost var before := blockStatus;
        ghost var done := effects;
        var blockResult, blockEffects := IndexOneBlock(env, force, current);
        IndexFromStep(config, env, managers, force, before, current, last, done, total,
                      Step(blockResult, blockEffects, blockStatus));
        effects := effects + blockEffects;
        if blockResult.Err? {
          result := blockResult;
          return;
        }
        current := current + 1;
      }
      assert IndexFrom(config, env, managers, force, blockStatus, current, last) == Step(Ok(()), [], blockStatus);
      assert effects + [] == effects;
      result := Ok(());
    }
  }
}
