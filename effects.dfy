/**
 * The calls the orchestrator makes on its collaborators, recorded in the
 * order it makes them. Reads of the chain that return the data a decision is
 * taken on (the pending and latest blocks, the block number) are inputs, not
 * effects.
 */
module Effects {
  import opened Types
  import opened Pipeline

  datatype Effect =
    /** `events_from_tx_receipt(tx)` on the chain client. */
    | FetchTxEvents(tx: Hash)
    /** `process_events(events, block, timestamp)`, with the manager calls it made. */
    | ProcessedEvents(block: nat, timestamp: nat, events: seq<EmittedEvent>, calls: seq<StageCall>)
    /** `clean_block(block)` on the block manager. */
    | CleanBlock(block: nat)
    /** `update_last_pending_block(block, timestamp)` on the block manager. */
    | UpdateLastPendingBlock(block: nat, timestamp: nat)
    /** `should_skip_indexing(block, version, force)` on the block manager. */
    | ShouldSkipIndexing(block: nat)
    /** `on_block_processing(block)` on the progress observer. */
    | OnBlockProcessing(block: nat)
    /** `set_block_info(block, version, identifier, status)` on the block manager. */
    | SetBlockInfo(block: nat, info: BlockInfo)
    /** `block_time(block)` on the chain client. */
    | BlockTime(block: nat)
    /** `fetch_events(block, block, keys)` on the chain client. */
    | FetchEvents(block: nat)
    /** `on_terminated(block, percent)` on the progress observer; the percentage is left out. */
    | OnTerminated(block: nat)
}
