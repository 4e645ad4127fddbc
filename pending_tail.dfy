/**
 * One tick of the pending-tail loop `index_pending`, as a function of the
 * cache before the tick and of what the collaborators answer during it, and
 * the properties of that tick: adopting the first timestamp, rollover to the
 * sealed latest block, desynchronisation cleanup, fatal failures on the
 * latest block and tolerated failures on the pending one.
 */
module PendingTail {
  import opened Types
  import opened Pipeline
  import opened Effects
  import opened PendingCache

  /** A block as `block_txs_hashes` reports it: its timestamp and its transaction hashes. */
  datatype BlockTxs = BlockTxs(timestamp: nat, txs: seq<Hash>)

  /**
   * What the collaborators answer during one tick: `block_txs_hashes` for the
   * pending and for the latest block, `block_number`, `events_from_tx_receipt`
   * per hash, and the outcome of the block manager's `clean_block` and
   * `update_last_pending_block`.
   */
  datatype TickEnv = TickEnv(
    pendingBlock: Result<BlockTxs, AnyhowError>,
    blockNumber: Result<nat, AnyhowError>,
    latestBlock: Result<BlockTxs, AnyhowError>,
    txEvents: Hash -> Result<seq<EmittedEvent>, AnyhowError>,
    cleanBlock: nat -> Result<(), StorageError>,
    updateLastPendingBlock: (nat, nat) -> Result<(), StorageError>)

  /**
   * How a tick ends: `Continue` goes straight to the next tick without the
   * sleep, `Sleep` sleeps before the next tick, `Fatal` ends `index_pending`
   * with an error.
   */
  datatype TickOutcome = Continue | Sleep | Fatal(error: IndexerError)

  /** The state reached while draining a list of transactions. */
  datatype Drained = Drained(effects: seq<Effect>, processed: set<Hash>, outcome: Result<(), IndexerError>)

  /**
   * Drains `txs` in order at (`block`, `timestamp`): a hash already processed
   * is passed over; otherwise its events are fetched and, on success, handed
   * to the pipeline and the hash is marked processed. A failed fetch ends the
   * drain with an error when `fatalOnError` holds (the latest block), and is
   * passed over, unmarked, otherwise (the pending block).
   */
  function DrainTxs(env: TickEnv, m: Managers, block: nat, timestamp: nat, fatalOnError: bool,
                    processed: set<Hash>, txs: seq<Hash>): Drained
    decreases |txs|
  {
    if txs == [] then Drained([], processed, Ok(()))
    else
      var d := DrainTxs(env, m, block, timestamp, fatalOnError, processed, txs[..|txs| - 1]);
      var tx := txs[|txs| - 1];
      if d.outcome.Err? || tx in d.processed then d
      else
        match env.txEvents(tx)
        case Ok(events) =>
          d.(effects := d.effects + [FetchTxEvents(tx), ProcessedEvents(block, timestamp, events, PipelineCalls(m, events, block, timestamp))],
             processed := d.processed + {tx})
        case Err(e) =>
          if fatalOnError then d.(effects := d.effects + [FetchTxEvents(tx)], outcome := Err(FromAnyhow(e)))
          else d.(effects := d.effects + [FetchTxEvents(tx)])
  }

  /** How a tick ended, what it did, and the cache it left. */
  datatype TickResult = TickResult(outcome: TickOutcome, effects: seq<Effect>, cache: CacheState)

  /**
   * The end of every tick that gets there: the pending block's transactions
   * are drained, tolerating failures, with the pending timestamp standing for
   * the block number.
   */
  function PendingPhase(env: TickEnv, m: Managers, cache: CacheState, pending: BlockTxs, before: seq<Effect>): TickResult
  {
    var d := DrainTxs(env, m, pending.timestamp, cache.timestamp, false, cache.processed, pending.txs);
    TickResult(Sleep, before + d.effects, cache.(processed := d.processed))
  }

  /** One iteration of the `index_pending` loop, from the cache `cache`. */
  function Tick(cache: CacheState, env: TickEnv, m: Managers): TickResult
  {
    match env.pendingBlock
    case Err(e) => TickResult(Fatal(FromAnyhow(e)), [], cache)
    case Ok(pending) =>
      var c := if cache.timestamp == 0 then cache.(timestamp := pending.timestamp) else cache;
      if pending.timestamp == c.timestamp then PendingPhase(env, m, c, pending, [])
      else
        match env.blockNumber
        case Err(e) => TickResult(Fatal(FromAnyhow(e)), [], c)
        case Ok(blockNumber) =>
          match env.latestBlock
          case Err(e) => TickResult(Fatal(FromAnyhow(e)), [], c)
          case Ok(latest) =>
            if latest.timestamp != c.timestamp then
              match env.cleanBlock(c.timestamp)
              case Err(e) => TickResult(Fatal(FromStorageError(e)), [CleanBlock(c.timestamp)], c)
              case Ok(_) => TickResult(Continue, [CleanBlock(c.timestamp)], CacheState(0, {}))
            else
              var d := DrainTxs(env, m, blockNumber, latest.timestamp, true, c.processed, latest.txs);
              if d.outcome.Err? then TickResult(Fatal(d.outcome.error), d.effects, c.(processed := d.processed))
              else
                var sealed := d.effects + [UpdateLastPendingBlock(blockNumber, latest.timestamp)];
                match env.updateLastPendingBlock(blockNumber, latest.timestamp)
                case Err(e) => TickResult(Fatal(FromStorageError(e)), sealed, c.(processed := d.processed))
                case Ok(_) => PendingPhase(env, m, CacheState(pending.timestamp, {}), pending, sealed)
  }

  /**
   * Every effect is the fetch of a hash of `txs` not in `skip`, or a
   * `process_events` call at (`block`, `timestamp`).
   */
  ghost predicate OnlyTxWork(effects: seq<Effect>, block: nat, timestamp: nat, txs: seq<Hash>, skip: set<Hash>)
  {
    forall i :: 0 <= i < |effects| ==>
      match effects[i]
      case FetchTxEvents(tx) => tx in txs && tx !in skip
      case ProcessedEvents(b, t, _, _) => b == block && t == timestamp
      case _ => false
  }

  /**
   * Every hash of `hs` is fetched exactly once and its events are handed to
   * the pipeline at (`block`, `timestamp`).
   */
  ghost predicate ProcessedOnce(effects: seq<Effect>, env: TickEnv, m: Managers, block: nat, timestamp: nat, hs: set<Hash>)
  {
    forall h :: h in hs ==>
      env.txEvents(h).Ok? &&
      multiset(effects)[FetchTxEvents(h)] == 1 &&
      ProcessedEvents(block, timestamp, env.txEvents(h).value,
                      PipelineCalls(m, env.txEvents(h).value, block, timestamp)) in effects
  }

  /**
   * What a drain can do at all: only fetch unprocessed hashes of the list and
   * process at its own block and timestamp; keep every hash already
   * processed and add only hashes whose events were fetched; fail only when
   * failures are fatal, and then with a chain-client error.
   */
  lemma {:induction false} DrainShape(env: TickEnv, m: Managers, block: nat, timestamp: nat, fatalOnError: bool,
                                      processed: set<Hash>, txs: seq<Hash>)
    ensures var d := DrainTxs(env, m, block, timestamp, fatalOnError, processed, txs);
      OnlyTxWork(d.effects, block, timestamp, txs, processed) &&
      processed <= d.processed &&
      (forall h :: h in d.processed ==> h in processed || (h in txs && env.txEvents(h).Ok?)) &&
      (!fatalOnError ==> d.outcome.Ok?) &&
      (d.outcome.Err? ==> d.outcome.error.Anyhow?)
    decreases |txs|
  {
    if txs != [] {
      var init := txs[..|txs| - 1];
      DrainShape(env, m, block, timestamp, fatalOnError, processed, init);
      assert txs == init + [txs[|txs| - 1]];
      var d := DrainTxs(env, m, block, timestamp, fatalOnError, processed, init);
      assert OnlyTxWork(d.effects, block, timestamp, txs, processed);
    }
  }

  /** A hash with fetchable events is fetched once if it ends up processed, and never otherwise. */
  lemma {:induction false} DrainFetchCount(env: TickEnv, m: Managers, block: nat, timestamp: nat, fatalOnError: bool,
                                           processed: set<Hash>, txs: seq<Hash>, h: Hash)
    requires h !in processed && env.txEvents(h).Ok?
    ensures var d := DrainTxs(env, m, block, timestamp, fatalOnError, processed, txs);
      multiset(d.effects)[FetchTxEvents(h)] == (if h in d.processed then 1 else 0) &&
      (h in d.processed ==>
         ProcessedEvents(block, timestamp, env.txEvents(h).value,
                         PipelineCalls(m, env.txEvents(h).value, block, timestamp)) in d.effects)
    decreases |txs|
  {
    if txs != [] {
      var init := txs[..|txs| - 1];
      var tx := txs[|txs| - 1];
      DrainFetchCount(env, m, block, timestamp, fatalOnError, processed, init, h);
      var d0 := DrainTxs(env, m, block, timestamp, fatalOnError, processed, init);
      var d := DrainTxs(env, m, block, timestamp, fatalOnError, processed, txs);
      if !(d0.outcome.Err? || tx in d0.processed) {
        var fetch := FetchTxEvents(tx);
        match env.txEvents(tx)
        case Ok(events) =>
          var work := ProcessedEvents(block, timestamp, events, PipelineCalls(m, events, block, timestamp));
          assert d.effects == d0.effects + [fetch, work];
          assert multiset(d.effects) == multiset(d0.effects) + multiset{fetch, work};
        case Err(_) =>
          assert d.effects == d0.effects + [fetch];
          assert multiset(d.effects) == multiset(d0.effects) + multiset{fetch};
      }
    }
  }

  /** A drain fails exactly when failures are fatal and some unprocessed hash of the list cannot be fetched. */
  lemma {:induction false} DrainFailsIff(env: TickEnv, m: Managers, block: nat, timestamp: nat, fatalOnError: bool,
                                         processed: set<Hash>, txs: seq<Hash>)
    ensures DrainTxs(env, m, block, timestamp, fatalOnError, processed, txs).outcome.Err? <==>
      fatalOnError && exists h :: h in txs && h !in processed && env.txEvents(h).Err?
    decreases |txs|
  {
    if txs != [] {
      var init := txs[..|txs| - 1];
      var tx := txs[|txs| - 1];
      DrainFailsIff(env, m, block, timestamp, fatalOnError, processed, init);
      DrainShape(env, m, block, timestamp, fatalOnError, processed, init);
      assert txs == init + [tx];
      var d := DrainTxs(env, m, block, timestamp, fatalOnError, processed, init);
      if d.outcome.Err? {
        var h :| h in init && h !in processed && env.txEvents(h).Err?;
        assert h in txs;
      }
    }
  }

  /**
   * A drain that did not fail fetched every unprocessed hash of the list:
   * later hashes are tried whatever happened to earlier ones.
   */
  lemma {:induction false} DrainTriesAll(env: TickEnv, m: Managers, block: nat, timestamp: nat, fatalOnError: bool,
                                         processed: set<Hash>, txs: seq<Hash>)
    requires DrainTxs(env, m, block, timestamp, fatalOnError, processed, txs).outcome.Ok?
    ensures var d := DrainTxs(env, m, block, timestamp, fatalOnError, processed, txs);
      forall h :: h in txs && h !in processed ==> FetchTxEvents(h) in d.effects
    decreases |txs|
  {
    if txs != [] {
      var init := txs[..|txs| - 1];
      var tx := txs[|txs| - 1];
      assert txs == init + [tx];
      DrainTriesAll(env, m, block, timestamp, fatalOnError, processed, init);
      DrainShape(env, m, block, timestamp, fatalOnError, processed, init);
      var d0 := DrainTxs(env, m, block, timestamp, fatalOnError, processed, init);
      var d := DrainTxs(env, m, block, timestamp, fatalOnError, processed, txs);
      assert d0.effects <= d.effects;
      forall h | h in txs && h !in processed
        ensures FetchTxEvents(h) in d.effects
      {
        if h in init {
          assert FetchTxEvents(h) in d0.effects;
        }
      }
    }
  }

  /**
   * A drain that did not fail marked processed exactly the hashes it held
   * before and the hashes of the list whose events could be fetched.
   */
  lemma {:induction false} DrainMarksFetchable(env: TickEnv, m: Managers, block: nat, timestamp: nat, fatalOnError: bool,
                                               processed: set<Hash>, txs: seq<Hash>)
    requires DrainTxs(env, m, block, timestamp, fatalOnError, processed, txs).outcome.Ok?
    ensures var d := DrainTxs(env, m, block, timestamp, fatalOnError, processed, txs);
      forall h :: h in d.processed <==> h in processed || (h in txs && env.txEvents(h).Ok?)
    decreases |txs|
  {
    if txs != [] {
      var init := txs[..|txs| - 1];
      var tx := txs[|txs| - 1];
      assert txs == init + [tx];
      DrainMarksFetchable(env, m, block, timestamp, fatalOnError, processed, init);
    }
  }

  /**
   * A drain that did not fail fetched every unprocessed hash of the list,
   * processed each fetchable one exactly once, and marked processed exactly
   * those.
   */
  lemma DrainCompletes(env: TickEnv, m: Managers, block: nat, timestamp: nat, fatalOnError: bool,
                       processed: set<Hash>, txs: seq<Hash>)
    requires DrainTxs(env, m, block, timestamp, fatalOnError, processed, txs).outcome.Ok?
    ensures var d := DrainTxs(env, m, block, timestamp, fatalOnError, processed, txs);
      (forall h :: h in txs && h !in processed ==> FetchTxEvents(h) in d.effects) &&
      (forall h :: h in d.processed <==> h in processed || (h in txs && env.txEvents(h).Ok?)) &&
      ProcessedOnce(d.effects, env, m, block, timestamp, set h | h in txs && h !in processed && env.txEvents(h).Ok?)
  {
    var d := DrainTxs(env, m, block, timestamp, fatalOnError, processed, txs);
    DrainTriesAll(env, m, block, timestamp, fatalOnError, processed, txs);
    DrainMarksFetchable(env, m, block, timestamp, fatalOnError, processed, txs);
    forall h | h in txs && h !in processed && env.txEvents(h).Ok?
      ensures multiset(d.effects)[FetchTxEvents(h)] == 1
      ensures ProcessedEvents(block, timestamp, env.txEvents(h).value,
                              PipelineCalls(m, env.txEvents(h).value, block, timestamp)) in d.effects
    {
      DrainFetchCount(env, m, block, timestamp, fatalOnError, processed, txs, h);
    }
  }

  /** Once a drain has failed, further hashes change nothing. */
  lemma {:induction false} DrainStopsAfterFailure(env: TickEnv, m: Managers, block: nat, timestamp: nat, fatalOnError: bool,
                                                  processed: set<Hash>, txs: seq<Hash>, k: nat)
    requires k <= |txs|
    requires DrainTxs(env, m, block, timestamp, fatalOnError, processed, txs[..k]).outcome.Err?
    ensures DrainTxs(env, m, block, timestamp, fatalOnError, processed, txs) ==
            DrainTxs(env, m, block, timestamp, fatalOnError, processed, txs[..k])
    decreases |txs| - k
  {
    if k < |txs| {
      var init := txs[..|txs| - 1];
      assert init[..k] == txs[..k];
      DrainStopsAfterFailure(env, m, block, timestamp, fatalOnError, processed, init, k);
    } else {
      assert txs[..k] == txs;
    }
  }

  /**
   * A tick whose cache is unset or already follows the observed pending
   * block takes no rollover branch: the cache adopts the observed timestamp,
   * every unprocessed pending hash is tried with the pending timestamp as
   * block number and timestamp, a hash is marked processed exactly when its
   * events could be fetched (a failed fetch is retried on a later tick), and
   * the tick ends in the sleep.
   */
  lemma SteadyTick(c: CacheState, env: TickEnv, m: Managers)
    requires env.pendingBlock.Ok?
    requires c.timestamp == 0 || c.timestamp == env.pendingBlock.value.timestamp
    ensures var p := env.pendingBlock.value; var r := Tick(c, env, m);
      r.outcome == Sleep &&
      r.cache.timestamp == p.timestamp &&
      OnlyTxWork(r.effects, p.timestamp, p.timestamp, p.txs, c.processed) &&
      (forall h :: h in p.txs && h !in c.processed ==> FetchTxEvents(h) in r.effects) &&
      (forall h :: h in r.cache.processed <==> h in c.processed || (h in p.txs && env.txEvents(h).Ok?)) &&
      ProcessedOnce(r.effects, env, m, p.timestamp, p.timestamp,
                    set h | h in p.txs && h !in c.processed && env.txEvents(h).Ok?)
  {
    var p := env.pendingBlock.value;
    DrainShape(env, m, p.timestamp, p.timestamp, false, c.processed, p.txs);
    DrainCompletes(env, m, p.timestamp, p.timestamp, false, c.processed, p.txs);
  }

  /**
   * Desynchronisation: when the pending block has moved on but the latest
   * block is not the one the cache followed, the stale block is cleaned under
   * the old cached timestamp and nothing is fetched or processed; if the
   * cleanup succeeds the cache is reset and the next tick starts at once,
   * otherwise the storage error ends the loop.
   */
  lemma DesyncResets(c: CacheState, env: TickEnv, m: Managers)
    requires env.pendingBlock.Ok? && env.blockNumber.Ok? && env.latestBlock.Ok?
    requires c.timestamp != 0 && env.pendingBlock.value.timestamp != c.timestamp
    requires env.latestBlock.value.timestamp != c.timestamp
    ensures var r := Tick(c, env, m);
      r.effects == [CleanBlock(c.timestamp)] &&
      (env.cleanBlock(c.timestamp).Ok? ==> r.outcome == Continue && r.cache == CacheState(0, {})) &&
      (env.cleanBlock(c.timestamp).Err? ==>
         r.outcome == Fatal(FromStorageError(env.cleanBlock(c.timestamp).error)) && r.cache == c)
  {
  }

  /**
   * Rollover: when the followed pending block has sealed into the latest
   * block and every one of its unprocessed transactions can be fetched, the
   * tick first processes each of them exactly once at the real block number
   * and the latest timestamp, then records the sealed block with
   * `update_last_pending_block`, and only after that works on the new
   * pending block, from an empty processed set (so every pending hash is
   * tried); the cache ends on the new timestamp holding only hashes of the
   * new pending block.
   */
  lemma RolloverCompletes(c: CacheState, env: TickEnv, m: Managers)
    requires env.pendingBlock.Ok? && env.blockNumber.Ok? && env.latestBlock.Ok?
    requires c.timestamp != 0 && env.pendingBlock.value.timestamp != c.timestamp
    requires env.latestBlock.value.timestamp == c.timestamp
    requires forall h :: h in env.latestBlock.value.txs && h !in c.processed ==> env.txEvents(h).Ok?
    requires env.updateLastPendingBlock(env.blockNumber.value, c.timestamp).Ok?
    ensures var p, l, bn := env.pendingBlock.value, env.latestBlock.value, env.blockNumber.value;
      var r := Tick(c, env, m);
      r.outcome == Sleep &&
      r.cache.timestamp == p.timestamp &&
      (forall h :: h in r.cache.processed <==> h in p.txs && env.txEvents(h).Ok?) &&
      exists k :: 0 <= k < |r.effects| && r.effects[k] == UpdateLastPendingBlock(bn, l.timestamp) &&
        OnlyTxWork(r.effects[..k], bn, l.timestamp, l.txs, c.processed) &&
        ProcessedOnce(r.effects[..k], env, m, bn, l.timestamp, set h | h in l.txs && h !in c.processed) &&
        OnlyTxWork(r.effects[k + 1..], p.timestamp, p.timestamp, p.txs, {}) &&
        (forall h :: h in p.txs ==> FetchTxEvents(h) in r.effects[k + 1..])
  {
    var p, l, bn := env.pendingBlock.value, env.latestBlock.value, env.blockNumber.value;
    var r := Tick(c, env, m);
    DrainFailsIff(env, m, bn, l.timestamp, true, c.processed, l.txs);
    var latest := DrainTxs(env, m, bn, l.timestamp, true, c.processed, l.txs);
    var pend := DrainTxs(env, m, p.timestamp, p.timestamp, false, {}, p.txs);
    assert r == TickResult(Sleep, latest.effects + [UpdateLastPendingBlock(bn, l.timestamp)] + pend.effects,
                           CacheState(p.timestamp, pend.processed));
    DrainShape(env, m, bn, l.timestamp, true, c.processed, l.txs);
    DrainCompletes(env, m, bn, l.timestamp, true, c.processed, l.txs);
    DrainShape(env, m, p.timestamp, p.timestamp, false, {}, p.txs);
    DrainCompletes(env, m, p.timestamp, p.timestamp, false, {}, p.txs);
    var k := |latest.effects|;
    assert r.effects[..k] == latest.effects;
    assert r.effects[k + 1..] == pend.effects;
    assert (set h | h in l.txs && h !in c.processed) == (set h | h in l.txs && h !in c.processed && env.txEvents(h).Ok?);
  }

  /**
   * A latest-block transaction whose events cannot be fetched ends
   * `index_pending` with the chain client's error: the pending block is not
   * touched, `update_last_pending_block` is not called, and the cache keeps
   * its old timestamp.
   */
  lemma LatestFailureIsFatal(c: CacheState, env: TickEnv, m: Managers)
    requires env.pendingBlock.Ok? && env.blockNumber.Ok? && env.latestBlock.Ok?
    requires c.timestamp != 0 && env.pendingBlock.value.timestamp != c.timestamp
    requires env.latestBlock.value.timestamp == c.timestamp
    requires exists h :: h in env.latestBlock.value.txs && h !in c.processed && env.txEvents(h).Err?
    ensures var l, bn := env.latestBlock.value, env.blockNumber.value;
      var r := Tick(c, env, m);
      r.outcome.Fatal? && r.outcome.error.Anyhow? &&
      r.cache.timestamp == c.timestamp &&
      (forall h :: h in r.cache.processed ==> h in c.processed || h in l.txs) &&
      OnlyTxWork(r.effects, bn, l.timestamp, l.txs, c.processed)
  {
    var l, bn := env.latestBlock.value, env.blockNumber.value;
    DrainFailsIff(env, m, bn, l.timestamp, true, c.processed, l.txs);
    DrainShape(env, m, bn, l.timestamp, true, c.processed, l.txs);
  }

  /**
   * After a desynchronised tick whose cleanup succeeded, the next tick starts
   * from a reset cache: it adopts the pending timestamp it observes, takes no
   * rollover branch, tries every pending hash and ends in the sleep.
   */
  lemma DesyncThenRecovers(c: CacheState, env1: TickEnv, env2: TickEnv, m: Managers)
    requires env1.pendingBlock.Ok? && env1.blockNumber.Ok? && env1.latestBlock.Ok?
    requires c.timestamp != 0 && env1.pendingBlock.value.timestamp != c.timestamp
    requires env1.latestBlock.value.timestamp != c.timestamp
    requires env1.cleanBlock(c.timestamp).Ok?
    requires env2.pendingBlock.Ok?
    ensures var r1 := Tick(c, env1, m); var r2 := Tick(r1.cache, env2, m); var p := env2.pendingBlock.value;
      r1.outcome == Continue && r2.outcome == Sleep &&
      r2.cache.timestamp == p.timestamp &&
      (forall h :: h in r2.cache.processed <==> h in p.txs && env2.txEvents(h).Ok?) &&
      (forall h :: h in p.txs ==> FetchTxEvents(h) in r2.effects)
  {
    DesyncResets(c, env1, m);
    SteadyTick(CacheState(0, {}), env2, m);
  }
}
