# Pontos orchestrator — a Dafny model

Pontos is a Starknet indexer. Its orchestrator (`crates/pontos/src/lib.rs`) drives
a chain client, a block manager, a collection manager, an event manager, a token
manager and a progress observer. This project models the orchestrator's decision
logic and proves what it does.

* **`process_events`**: every emitted event goes through four stages:
  1. classify the emitting contract;
  2. drop the event if the contract is `Other`;
  3. register the event;
  4. register the token.

  A failing stage drops that one event and nothing else, and the call always
  succeeds.
* **`index_pending`**: one iteration of the pending-tail loop works on a cache
  (`PendingBlockData`). The cache holds the timestamp of the pending block being
  followed and the set of transaction hashes already processed. The iteration
  either:
  * drains the pending block, tolerating unreadable transactions; or
  * sees that the followed block has sealed, drains it fully as the latest
    block (failures are fatal), records it with `update_last_pending_block`,
    and starts on the new pending block; or
  * sees that the latest block is not the followed one, cleans the stale block
    and restarts at once.
* **`index_block_range`**: an ascending walk over a block range. For each block:
  1. ask the block manager whether to skip it;
  2. otherwise notify the observer, mark the block `Processing`, read its time
     and events, run the pipeline, mark it `Terminated` and notify again.

  The first error ends the walk.
* The two `From` conversions into `IndexerError`.

Every collaborator is an oracle, given as a value:
* `Managers` holds the three managers the pipeline calls.
* `TickEnv` holds what the chain client and the block manager answer during a tick.
* `RangeEnv` holds the same for a range walk.

Calls that act on a collaborator are recorded, in order, as an `Effect` trace. Reads whose answers the decisions depend on are inputs and are not recorded. These are `block_txs_hashes`, `block_number` and `block_id_to_u64`.

Each operation has a specification function (`PipelineCalls`, `DrainTxs`/`Tick`,
`IndexBlock`/`IndexFrom`/`IndexRange`), and the imperative code is proved equal
to it:
* `ProcessEvents` is a loop.
* `Pontos.IndexPendingTick` and its two transaction loops mutate the
  `PendingBlockData` object.
* `Pontos.IndexBlockRange` mutates the block-status map.

The properties are lemmas about the specification functions.

Files:
* `types.dfy`: identifiers, events, block statuses, errors, conversions.
* `pipeline.dfy`: the event pipeline.
* `effects.dfy`: the effect trace.
* `pending_cache.dfy`: the `PendingBlockData` class.
* `pending_tail.dfy`: one `index_pending` iteration as a function, and its properties.
* `block_range.dfy`: the range walk as a function, and its properties.
* `pontos.dfy`: the `Pontos` class and its methods.

## Model

| member | source | states |
|---|---|---|
| Types.ConversionsKeepOrigin | crates/pontos/src/lib.rs:30-40 | A storage error becomes `IndexerError::StorageError` holding that same error, and a generic error becomes `IndexerError::Anyhow` holding its rendered message. The two results are never equal. |
| Pipeline.ProcessEvents | crates/pontos/src/lib.rs:294-351 | The loop over events always returns `Ok(())`. The manager calls it makes are exactly `PipelineCalls`: per event, classification, then event registration unless classification failed or gave `Other`, then token registration if event registration succeeded. |
| Pipeline.PipelineSplits | crates/pontos/src/lib.rs:300-348 | Events are independent. The calls for `a + b` are the calls for `a` followed by the calls for `b`, whatever failed in `a`. |
| Pipeline.EveryEventClassified | crates/pontos/src/lib.rs:300-319 | Every event's contract is classified at the given block, even after earlier failures. Every classification call is for some event of the list, at that block. |
| Pipeline.RegistersExactlyRelevantEvents | crates/pontos/src/lib.rs:303-335 | `format_and_register_event(e, ct, t)` is called iff `e` is in the list, classification of its contract succeeded with a type other than `Other`, `ct` is that type and `t` is the block timestamp. |
| Pipeline.RegistersTokenOnlyAfterEvent | crates/pontos/src/lib.rs:325-347 | `format_and_register_token(te)` is called iff some event of the list passed classification and event registration, and that registration returned `te`. |
| PendingCache.PendingBlockData.constructor | crates/pontos/src/lib.rs:82 | A new cache has timestamp 0 and no processed hash. |
| PendingCache.PendingBlockData.GetTimestamp | crates/pontos/src/lib.rs:100-109 | Returns the timestamp of the followed pending block, which is 0 while no block is followed. |
| PendingCache.PendingBlockData.IsTxProcessed | crates/pontos/src/lib.rs:140-142 | True exactly when the hash is in the processed set. |
| PendingCache.PendingBlockData.SetTimestamp | crates/pontos/src/lib.rs:100-101 | Sets the timestamp and keeps the processed set. |
| PendingCache.PendingBlockData.ClearTxHashes | crates/pontos/src/lib.rs:134-135 | Empties the processed set and keeps the timestamp. |
| PendingCache.PendingBlockData.AddTxAsProcessed | crates/pontos/src/lib.rs:147 | Adds one hash to the processed set and keeps the timestamp. |
| PendingTail.DrainShape | crates/pontos/src/lib.rs:140-162 | A drain fetches only unprocessed hashes of its list, and processes only at its own block and timestamp. It keeps every hash already processed, and adds only hashes of the list whose events were fetched. It never fails when failures are tolerated, and a failure is always a chain-client (`Anyhow`) error. |
| PendingTail.DrainFetchCount | crates/pontos/src/lib.rs:140-162 | Let a hash be unprocessed with readable events. It is fetched exactly once if it ends up processed, and never otherwise. When processed, its events were handed to `process_events` at the drain's block and timestamp. |
| PendingTail.DrainFailsIff | crates/pontos/src/lib.rs:140-162 | A drain fails iff failures are fatal and some unprocessed hash of the list cannot be fetched. |
| PendingTail.DrainStopsAfterFailure | crates/pontos/src/lib.rs:149-159 | Once the latest-block drain has failed, the remaining hashes change nothing: no fetch, no processing, no mark. |
| PendingTail.DrainTriesAll | crates/pontos/src/lib.rs:182-203 | A drain that did not fail fetched every unprocessed hash of its list: an unreadable pending transaction does not stop the later ones. |
| PendingTail.DrainMarksFetchable | crates/pontos/src/lib.rs:182-203 | After a drain that did not fail, a hash is processed iff it was processed before, or it is in the list and its events could be read. An unreadable hash stays unmarked, so it is retried on a later tick. |
| PendingTail.DrainCompletes | crates/pontos/src/lib.rs:182-203 | For a drain that did not fail: every unprocessed hash was fetched; the processed set is exactly the old one plus the readable hashes; each readable unprocessed hash was fetched exactly once and processed. |
| PendingTail.SteadyTick | crates/pontos/src/lib.rs:98-203 | Take an unset cache, or one that follows the observed pending block. The tick adopts the observed timestamp and takes no rollover branch. It tries every unprocessed pending hash, using the pending timestamp as both block number and timestamp. A hash is marked iff its events were read, each such hash is processed exactly once, and the tick ends in the sleep. |
| PendingTail.DesyncResets | crates/pontos/src/lib.rs:109-137 | The pending block moved on, but the latest block is not the one followed. The tick's only effect is `clean_block` under the old cached timestamp. On success the cache is reset to `(0, {})` and the next tick starts without sleeping. On failure the storage error ends the loop and the cache is unchanged. |
| PendingTail.RolloverCompletes | crates/pontos/src/lib.rs:139-203 | The followed block sealed as the latest block, and all its unprocessed transactions are readable. First, each one is processed exactly once at the real block number and latest timestamp. Then `update_last_pending_block(number, timestamp)` is called. Only after that is the new pending block worked on, from an empty processed set, with every pending hash tried. The cache ends on the new timestamp, holding exactly the readable pending hashes. |
| PendingTail.LatestFailureIsFatal | crates/pontos/src/lib.rs:139-162 | An unreadable unprocessed transaction of the sealed latest block ends `index_pending` with the client's error. `update_last_pending_block` is not called, the pending block is not touched, and the cache keeps its timestamp. |
| PendingTail.DesyncThenRecovers | crates/pontos/src/lib.rs:122-137 | After a desynchronised tick whose cleanup succeeded, the next tick adopts the pending timestamp it observes. It tries every pending hash, marks exactly the readable ones and sleeps. |
| Orchestrator.Pontos.constructor | crates/pontos/src/lib.rs:60-84 | The engine keeps its configuration and managers, and starts with a fresh pending cache at `(0, {})`. |
| Orchestrator.Pontos.IndexPendingTick | crates/pontos/src/lib.rs:88-206 | One iteration of the loop, mutating the pending cache. Its outcome, its effect trace and the cache it leaves are exactly those of `Tick` on the cache before it. |
| Orchestrator.Pontos.ProcessLatestTxs | crates/pontos/src/lib.rs:140-162 | The loop over the sealed block's transactions. The trace, the processed set and the result equal `DrainTxs` with fatal failures, and the timestamp is unchanged. |
| Orchestrator.Pontos.ProcessPendingTxs | crates/pontos/src/lib.rs:182-203 | The loop over the pending transactions. The trace and the processed set equal `DrainTxs` with tolerated failures at the cached timestamp, and the timestamp is unchanged. |
| Orchestrator.Pontos.IndexOneBlock | crates/pontos/src/lib.rs:233-287 | One block of the range. The result, the trace and the new status map are those of `IndexBlock`. |
| Orchestrator.Pontos.IndexBlockRange | crates/pontos/src/lib.rs:216-291 | The whole range walk. The result, the trace and the final status map equal `IndexRange` on the status map before the call. |
| BlockRange.IndexBlockOutcome | crates/pontos/src/lib.rs:233-287 | For one block: every effect concerns that block, the skip query comes first, and only that block's status can change. If it ends well, then either it was skipped (only the skip query, nothing written) or it went through notice, `Processing`, block time, events, pipeline, `Terminated` and final notice, in that order, and ends `Terminated` under the configured version and identifier. |
| BlockRange.FailedBlockStaysProcessing | crates/pontos/src/lib.rs:244-285 | A block that fails after its `Processing` write stays marked `Processing`, and the observer is never told it terminated. |
| BlockRange.RangeAbortsAtFailure | crates/pontos/src/lib.rs:225-288 | A walk that fails, fails at some block `k` of the range. The walk is the blocks before `k`, which all end well, followed by block `k`, which fails. Its error is the walk's, and no later block is queried, processed or written. |
| BlockRange.ForcedRangeProcessesAll | crates/pontos/src/lib.rs:233-287 | Suppose the block manager answers "do not skip" to every forced query. Then a forced walk that ends well indexed every block of the range to the end: each block has the eight effects of a processed block, in order, and ends `Terminated` under the configuration. |
| BlockRange.RangeAscending | crates/pontos/src/lib.rs:225-288 | Whether the walk ends well or not, every effect concerns a block of the range, and the blocks never go down. |
| BlockRange.RangeWritesOnlyInRange | crates/pontos/src/lib.rs:225-288 | No status outside the range is written. |
| BlockRange.RangeBlockOutcomes | crates/pontos/src/lib.rs:225-288 | After a walk that ends well, each block of the range was either skipped (its only effect is the skip query and its status is unchanged) or fully indexed (its effects are exactly the eight of a processed block, in order, and it is `Terminated` under the configuration). |
| BlockRange.RangeLeavesTerminated | crates/pontos/src/lib.rs:233-282 | Assume the skip rule (unforced, skip iff `Terminated` under the same version). Then a walk that ends well leaves every block of the range `Terminated` under the version. |
| BlockRange.TerminatedRangeIsSkipped | crates/pontos/src/lib.rs:233-240 | Assume the skip rule. Then walking a range whose blocks are all `Terminated` under the version only asks the skip query of each block, in ascending order, and changes nothing. |
| BlockRange.SecondRunSkipsEverything | crates/pontos/src/lib.rs:233-240 | Assume the skip rule. Then re-running the same unforced range on the statuses the first successful run left only asks the skip queries, processes no event and writes nothing. |

## Left out

- Async execution, the locks around the pending cache and the collection manager, and concurrency between `index_pending` and `index_block_range` are not modelled. One tick runs as if it held the cache throughout, as it does in the source.
- The unbounded `loop` of `index_pending`, its three-second sleep and the `continue` that skips it: a tick ends in `Continue`, `Sleep` or `Fatal`. Several ticks are related only by `PendingTail.DesyncThenRecovers`.
- Logging, tracing and `init_tracing` are left out: they have no effect on decisions.
- The completion percentage passed to `on_terminated` is floating point. The `OnTerminated` effect records only the block.
- The internals of the chain client, the block manager, the event manager, the token manager, the collection manager and its cache are not modelled. They are oracles whose answers are inputs, and `clean_block` and `update_last_pending_block` are recorded only as effects.
- The manager implementations are not part of this model, so the error type of each collaborator call is assumed:
  - `identify_contract` and every chain-client call (`block_txs_hashes`, `block_number`, `events_from_tx_receipt`, `block_id_to_u64`, `block_time`, `fetch_events`) fail with a generic error;
  - the two registrations fail with a storage error;
  - the block manager's `should_skip_indexing`, `set_block_info`, `clean_block` and `update_last_pending_block` fail with a storage error.
- Every oracle is a fixed function of its arguments. Within one call it gives the same answer to the same arguments. In `PendingTail.DesyncThenRecovers` the managers `m` also answer the same across the two ticks. In the source, the collection manager is stateful (it has a cache behind a write lock), so two events of one contract in a list could be classified differently, and a hash fetched twice could get two different answers. The model cannot express this. The per-event "iff" statements of `Pipeline.RegistersExactlyRelevantEvents` and `Pipeline.RegistersTokenOnlyAfterEvent` rely on this assumption.
- `PendingBlockData`'s own source is not part of this model. Its four operations are modelled by the meaning their names and uses give them.
- `fetch_events` returns a map from block to events. Since it is asked for a single block, it is modelled as one sequence of events for that block, so the iteration order of the map does not arise.
- `should_skip_indexing`'s rule lives in the block manager. The idempotence lemmas take it as the hypothesis `SkipsTerminated` (unforced, skip iff `Terminated` under the same version).
- Orchestrator.Pontos.IndexBlockRange: requires the resolved last block to be below `u64::MAX`. At `u64::MAX` the source's `current_u64 += 1` overflows, and the model does not capture that wrap or panic.
- Block numbers and timestamps are unbounded naturals, so no other `u64` limit is modelled.
- Types.ConversionsKeepOrigin: the conversion from a generic error keeps only its rendered message. The error chain behind it is not modelled.
