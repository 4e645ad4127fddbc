/**
 * The bounded range traversal `index_block_range`, as a function of the
 * block-status map before the call and of what the collaborators answer, and
 * its properties: ascending inclusive traversal, the order of effects for
 * each block, the final status map, and idempotence under the block
 * manager's skip rule.
 */
module BlockRange {
  import opened Types
  import opened Pipeline
  import opened Effects

  /**
   * What the collaborators answer during a range traversal:
   * `block_id_to_u64` for both ends, the block manager's
   * `should_skip_indexing` (over the current status map, the block, the
   * version and the force flag) and the outcome of its `set_block_info`, and
   * the chain client's `block_time` and `fetch_events` for one block.
   */
  datatype RangeEnv = RangeEnv(
    fromBlock: Result<nat, AnyhowError>,
    toBlock: Result<nat, AnyhowError>,
    shouldSkipIndexing: (map<nat, BlockInfo>, nat, string, bool) -> Result<bool, StorageError>,
    setBlockInfo: (nat, BlockIndexingStatus) -> Result<(), StorageError>,
    blockTime: nat -> Result<nat, AnyhowError>,
    fetchEvents: nat -> Result<seq<EmittedEvent>, AnyhowError>)

  /** The outcome, the effects and the status map after some blocks. */
  datatype Step = Step(outcome: Result<(), IndexerError>, effects: seq<Effect>, status: map<nat, BlockInfo>)

  /** A status stamped with the configured version and identifier. */
  function Tagged(cfg: PontosConfig, s: BlockIndexingStatus): BlockInfo
  {
    BlockInfo(s, cfg.indexerVersion, cfg.indexerIdentifier)
  }

  /** The effects of a block that is indexed to the end, in order. */
  function ProcessedBlock(cfg: PontosConfig, m: Managers, n: nat, timestamp: nat, events: seq<EmittedEvent>): seq<Effect>
  {
    [ShouldSkipIndexing(n), OnBlockProcessing(n), SetBlockInfo(n, Tagged(cfg, Processing)), BlockTime(n), FetchEvents(n),
     ProcessedEvents(n, timestamp, events, PipelineCalls(m, events, n, timestamp)),
     SetBlockInfo(n, Tagged(cfg, Terminated)), OnTerminated(n)]
  }

  /** One block `n` of the traversal. */
  function IndexBlock(cfg: PontosConfig, env: RangeEnv, m: Managers, force: bool, status: map<nat, BlockInfo>, n: nat): Step
  {
    var queried := [ShouldSkipIndexing(n)];
    match env.shouldSkipIndexing(status, n, cfg.indexerVersion, force)
    case Err(e) => Step(Err(FromStorageError(e)), queried, status)
    case Ok(skip) =>
      if skip then Step(Ok(()), queried, status)
      else
        var started := queried + [OnBlockProcessing(n), SetBlockInfo(n, Tagged(cfg, Processing))];
        match env.setBlockInfo(n, Processing)
        case Err(e) => Step(Err(FromStorageError(e)), started, status)
        case Ok(_) =>
          var marked := status[n := Tagged(cfg, Processing)];
          match env.blockTime(n)
          case Err(e) => Step(Err(FromAnyhow(e)), started + [BlockTime(n)], marked)
          case Ok(timestamp) =>
            match env.fetchEvents(n)
            case Err(e) => Step(Err(FromAnyhow(e)), started + [BlockTime(n), FetchEvents(n)], marked)
            case Ok(events) =>
              var done := started + [BlockTime(n), FetchEvents(n),
                                     ProcessedEvents(n, timestamp, events, PipelineCalls(m, events, n, timestamp)),
                                     SetBlockInfo(n, Tagged(cfg, Terminated))];
              match env.setBlockInfo(n, Terminated)
              case Err(e) => Step(Err(FromStorageError(e)), done, marked)
              case Ok(_) => Step(Ok(()), done + [OnTerminated(n)], marked[n := Tagged(cfg, Terminated)])
  }

  /** Blocks `n`, `n + 1`, ..., `last`, stopping at the first error. */
  function IndexFrom(cfg: PontosConfig, env: RangeEnv, m: Managers, force: bool, status: map<nat, BlockInfo>, n: nat, last: nat): Step
    decreases last + 1 - n
  {
    if n > last then Step(Ok(()), [], status)
    else
      var s := IndexBlock(cfg, env, m, force, status, n);
      if s.outcome.Err? then s
      else
        var rest := IndexFrom(cfg, env, m, force, s.status, n + 1, last);
        Step(rest.outcome, s.effects + rest.effects, rest.status)
  }

  /**
   * One step of the traversal, for a loop that has already produced `done`:
   * a failing block ends the traversal with its own step, any other block
   * hands over to the traversal of the next block from the status it left.
   */
  lemma IndexFromStep(cfg: PontosConfig, env: RangeEnv, m: Managers, force: bool, status: map<nat, BlockInfo>,
                      n: nat, last: nat, done: seq<Effect>, total: Step, s: Step)
    requires n <= last && s == IndexBlock(cfg, env, m, force, status, n)
    requires var rest := IndexFrom(cfg, env, m, force, status, n, last);
      total == Step(rest.outcome, done + rest.effects, rest.status)
    ensures s.outcome.Err? ==> total == Step(s.outcome, done + s.effects, s.status)
    ensures s.outcome.Ok? ==> var rest := IndexFrom(cfg, env, m, force, s.status, n + 1, last);
      total == Step(rest.outcome, done + s.effects + rest.effects, rest.status)
  {
  }

  /** The whole call: both ends are resolved once, then the blocks are traversed. */
  function IndexRange(cfg: PontosConfig, env: RangeEnv, m: Managers, force: bool, status: map<nat, BlockInfo>): Step
  {
    match env.fromBlock
    case Err(e) => Step(Err(FromAnyhow(e)), [], status)
    case Ok(from) =>
      match env.toBlock
      case Err(e) => Step(Err(FromAnyhow(e)), [], status)
      case Ok(last) => IndexFrom(cfg, env, m, force, status, from, last)
  }

  /** Every effect of the range traversal concerns one block. */
  predicate HasBlock(e: Effect)
  {
    !e.FetchTxEvents?
  }

  /** The effects concerning block `n`, in order. */
  function EffectsFor(effects: seq<Effect>, n: nat): seq<Effect>
    decreases |effects|
  {
    if effects == [] then []
    else (if HasBlock(effects[0]) && effects[0].block == n then [effects[0]] else []) + EffectsFor(effects[1..], n)
  }

  /** Every effect concerns a block between `lo` and `hi`. */
  ghost predicate BlocksWithin(effects: seq<Effect>, lo: nat, hi: nat)
  {
    forall i :: 0 <= i < |effects| ==> HasBlock(effects[i]) && lo <= effects[i].block <= hi
  }

  /** The blocks the effects concern never go down. */
  ghost predicate Ascending(effects: seq<Effect>)
  {
    forall i, j :: 0 <= i < j < |effects| && HasBlock(effects[i]) && HasBlock(effects[j]) ==>
      effects[i].block <= effects[j].block
  }

  /** Maps `a` and `b` agree at key `k`. */
  ghost predicate SameAt(a: map<nat, BlockInfo>, b: map<nat, BlockInfo>, k: nat)
  {
    (k in a <==> k in b) && (k in a ==> a[k] == b[k])
  }

  /**
   * One block: every effect concerns `n`, only `n`'s status can change, and
   * a block that ends well was either skipped (only the skip query, nothing
   * written) or went through observer notice, `Processing`, block time,
   * event fetch, the pipeline, `Terminated` and the final notice, in that
   * order.
   */
  lemma IndexBlockOutcome(cfg: PontosConfig, env: RangeEnv, m: Managers, force: bool, status: map<nat, BlockInfo>, n: nat)
    ensures var s := IndexBlock(cfg, env, m, force, status, n);
      BlocksWithin(s.effects, n, n) &&
      |s.effects| > 0 && s.effects[0] == ShouldSkipIndexing(n) &&
      (forall k :: k != n ==> SameAt(s.status, status, k)) &&
      (s.outcome.Err? ==> OnTerminated(n) !in s.effects) &&
      (s.outcome.Ok? ==>
        (env.shouldSkipIndexing(status, n, cfg.indexerVersion, force) == Ok(true) &&
         s.effects == [ShouldSkipIndexing(n)] && s.status == status) ||
        (env.shouldSkipIndexing(status, n, cfg.indexerVersion, force) == Ok(false) &&
         env.blockTime(n).Ok? && env.fetchEvents(n).Ok? &&
         s.effects == ProcessedBlock(cfg, m, n, env.blockTime(n).value, env.fetchEvents(n).value) &&
         s.status == status[n := Tagged(cfg, Terminated)]))
  {
  }

  /**
   * A block that fails after its `Processing` write stays marked
   * `Processing` (observable as unfinished), and the observer is not told it
   * terminated.
   */
  lemma FailedBlockStaysProcessing(cfg: PontosConfig, env: RangeEnv, m: Managers, force: bool, status: map<nat, BlockInfo>, n: nat)
    requires env.shouldSkipIndexing(status, n, cfg.indexerVersion, force) == Ok(false)
    requires env.setBlockInfo(n, Processing).Ok?
    requires IndexBlock(cfg, env, m, force, status, n).outcome.Err?
    ensures var s := IndexBlock(cfg, env, m, force, status, n);
      n in s.status && s.status[n] == Tagged(cfg, Processing) &&
      OnTerminated(n) !in s.effects &&
      s.effects[..3] == [ShouldSkipIndexing(n), OnBlockProcessing(n), SetBlockInfo(n, Tagged(cfg, Processing))]
  {
  }

  /** Putting a block's effects before those of later blocks keeps them ascending. */
  lemma AscendingJoin(a: seq<Effect>, b: seq<Effect>, n: nat, last: nat)
    requires n <= last
    requires BlocksWithin(a, n, n)
    requires BlocksWithin(b, n + 1, last) && Ascending(b)
    ensures BlocksWithin(a + b, n, last) && Ascending(a + b)
  {
  }

  /**
   * Blocks are visited in ascending order, each effect concerning a block of
   * the range, whether the traversal ends well or not.
   */
  lemma {:induction false} RangeAscending(cfg: PontosConfig, env: RangeEnv, m: Managers, force: bool,
                                          status: map<nat, BlockInfo>, n: nat, last: nat)
    ensures var r := IndexFrom(cfg, env, m, force, status, n, last);
      BlocksWithin(r.effects, n, last) && Ascending(r.effects)
    decreases last + 1 - n
  {
    if n <= last {
      var s := IndexBlock(cfg, env, m, force, status, n);
      IndexBlockOutcome(cfg, env, m, force, status, n);
      if s.outcome.Ok? {
        var rest := IndexFrom(cfg, env, m, force, s.status, n + 1, last);
        RangeAscending(cfg, env, m, force, s.status, n + 1, last);
        AscendingJoin(s.effects, rest.effects, n, last);
      }
    }
  }

  /** The traversal writes no status outside the range. */
  lemma {:induction false} RangeWritesOnlyInRange(cfg: PontosConfig, env: RangeEnv, m: Managers, force: bool,
                                                  status: map<nat, BlockInfo>, n: nat, last: nat)
    ensures forall k: nat :: k < n || last < k ==> SameAt(IndexFrom(cfg, env, m, force, status, n, last).status, status, k)
    decreases last + 1 - n
  {
    if n <= last {
      var s := IndexBlock(cfg, env, m, force, status, n);
      IndexBlockOutcome(cfg, env, m, force, status, n);
      if s.outcome.Ok? {
        var rest := IndexFrom(cfg, env, m, force, s.status, n + 1, last);
        RangeWritesOnlyInRange(cfg, env, m, force, s.status, n + 1, last);
        forall k: nat | k < n || last < k
          ensures SameAt(rest.status, status, k)
        {
          assert SameAt(rest.status, s.status, k) && SameAt(s.status, status, k);
        }
      }
    }
  }

  /** Filtering by block distributes over concatenation. */
  lemma {:induction false} EffectsForSplits(a: seq<Effect>, b: seq<Effect>, n: nat)
    ensures EffectsFor(a + b, n) == EffectsFor(a, n) + EffectsFor(b, n)
    decreases |a|
  {
    if a != [] {
      assert (a + b)[1..] == a[1..] + b;
      EffectsForSplits(a[1..], b, n);
    } else {
      assert a + b == b;
    }
  }

  /** Effects that all concern block `k` filter to themselves for `k` and to nothing for other blocks. */
  lemma {:induction false} EffectsForWithin(a: seq<Effect>, lo: nat, hi: nat, n: nat)
    requires BlocksWithin(a, lo, hi)
    ensures n < lo || hi < n ==> EffectsFor(a, n) == []
    ensures lo == hi == n ==> EffectsFor(a, n) == a
    decreases |a|
  {
    if a != [] {
      EffectsForWithin(a[1..], lo, hi, n);
    }
  }

  /**
   * Block `k` was indexed to the end: its effects are those of
   * `ProcessedBlock`, in order, and it is `Terminated` under the configured
   * version and identifier.
   */
  ghost predicate FullyIndexed(cfg: PontosConfig, env: RangeEnv, m: Managers, r: Step, k: nat)
  {
    env.blockTime(k).Ok? && env.fetchEvents(k).Ok? &&
    EffectsFor(r.effects, k) == ProcessedBlock(cfg, m, k, env.blockTime(k).value, env.fetchEvents(k).value) &&
    k in r.status && r.status[k] == Tagged(cfg, Terminated)
  }

  /** How block `k` ended in a traversal that ended well. */
  ghost predicate BlockOutcome(cfg: PontosConfig, env: RangeEnv, m: Managers, before: map<nat, BlockInfo>, r: Step, k: nat)
  {
    (EffectsFor(r.effects, k) == [ShouldSkipIndexing(k)] && SameAt(r.status, before, k)) ||
    FullyIndexed(cfg, env, m, r, k)
  }

  /**
   * After a traversal that ended well, every block of the range was either
   * skipped (its only effect is the skip query and its status is as before)
   * or fully indexed (its effects are those of `ProcessedBlock`, in order,
   * and it is `Terminated` under the configured version and identifier).
   */
  lemma {:induction false} RangeBlockOutcomes(cfg: PontosConfig, env: RangeEnv, m: Managers, force: bool,
                                              status: map<nat, BlockInfo>, n: nat, last: nat)
    requires IndexFrom(cfg, env, m, force, status, n, last).outcome.Ok?
    ensures var r := IndexFrom(cfg, env, m, force, status, n, last);
      forall k :: n <= k <= last ==> BlockOutcome(cfg, env, m, status, r, k)
    decreases last + 1 - n
  {
    if n <= last {
      var s := IndexBlock(cfg, env, m, force, status, n);
      assert s.outcome.Ok?;
      var rest := IndexFrom(cfg, env, m, force, s.status, n + 1, last);
      var r := Step(rest.outcome, s.effects + rest.effects, rest.status);
      assert IndexFrom(cfg, env, m, force, status, n, last) == r;
      IndexBlockOutcome(cfg, env, m, force, status, n);
      RangeBlockOutcomes(cfg, env, m, force, s.status, n + 1, last);
      RangeAscending(cfg, env, m, force, s.status, n + 1, last);
      RangeWritesOnlyInRange(cfg, env, m, force, s.status, n + 1, last);
      // The first block: the later blocks add no effect for it and leave its status alone.
      EffectsForWithin(s.effects, n, n, n);
      EffectsForWithin(rest.effects, n + 1, last, n);
      assert SameAt(rest.status, s.status, n);
      OutcomeCompose(cfg, env, m, status, s, rest, r, n);
      // The later blocks: the first block adds no effect for them and leaves their status alone.
      forall k | n < k <= last
        ensures BlockOutcome(cfg, env, m, status, r, k)
      {
        EffectsForWithin(s.effects, n, n, k);
        OutcomeCompose(cfg, env, m, status, s, rest, r, k);
      }
    }
  }

  /** The walk over blocks `n` to `k - 1`, the blocks before `k`. */
  function Upto(cfg: PontosConfig, env: RangeEnv, m: Managers, force: bool, status: map<nat, BlockInfo>, n: nat, k: nat): Step
  {
    if k <= n then Step(Ok(()), [], status) else IndexFrom(cfg, env, m, force, status, n, k - 1)
  }

  /**
   * The walk from `n` to `last` is the blocks before `k`, all ending well,
   * followed by block `k`, which fails: its error is the walk's, and no later
   * block is queried, processed or written.
   */
  ghost predicate FailsAt(cfg: PontosConfig, env: RangeEnv, m: Managers, force: bool, status: map<nat, BlockInfo>,
                          n: nat, last: nat, k: nat)
  {
    var p := Upto(cfg, env, m, force, status, n, k);
    var s := IndexBlock(cfg, env, m, force, p.status, k);
    n <= k <= last && p.outcome.Ok? && s.outcome.Err? &&
    IndexFrom(cfg, env, m, force, status, n, last) == Step(s.outcome, p.effects + s.effects, s.status)
  }

  /** The first error ends the walk: a walk that fails, fails at some block of the range. */
  lemma {:induction false} RangeAbortsAtFailure(cfg: PontosConfig, env: RangeEnv, m: Managers, force: bool,
                                                status: map<nat, BlockInfo>, n: nat, last: nat)
    requires IndexFrom(cfg, env, m, force, status, n, last).outcome.Err?
    ensures exists k :: FailsAt(cfg, env, m, force, status, n, last, k)
    decreases last + 1 - n
  {
    var first := IndexBlock(cfg, env, m, force, status, n);
    if first.outcome.Err? {
      assert [] + first.effects == first.effects;
      assert FailsAt(cfg, env, m, force, status, n, last, n);
    } else {
      RangeAbortsAtFailure(cfg, env, m, force, first.status, n + 1, last);
      var k :| FailsAt(cfg, env, m, force, first.status, n + 1, last, k);
      FailsAtShift(cfg, env, m, force, status, n, last, k);
    }
  }

  /** A failure at `k` in the walk after block `n` is a failure at `k` in the walk from `n`, when block `n` ends well. */
  lemma FailsAtShift(cfg: PontosConfig, env: RangeEnv, m: Managers, force: bool, status: map<nat, BlockInfo>,
                     n: nat, last: nat, k: nat)
    requires IndexBlock(cfg, env, m, force, status, n).outcome.Ok?
    requires FailsAt(cfg, env, m, force, IndexBlock(cfg, env, m, force, status, n).status, n + 1, last, k)
    ensures FailsAt(cfg, env, m, force, status, n, last, k)
  {
    var first := IndexBlock(cfg, env, m, force, status, n);
    var later := Upto(cfg, env, m, force, first.status, n + 1, k);
    var s := IndexBlock(cfg, env, m, force, later.status, k);
    var rest := IndexFrom(cfg, env, m, force, first.status, n + 1, last);
    assert IndexFrom(cfg, env, m, force, status, n, last) == Step(rest.outcome, first.effects + rest.effects, rest.status);
    // The blocks before `k` are block `n` followed by the blocks from `n + 1` to `k - 1`.
    assert IndexFrom(cfg, env, m, force, first.status, n + 1, k - 1) == later;
    assert Upto(cfg, env, m, force, status, n, k) == Step(later.outcome, first.effects + later.effects, later.status);
    assert first.effects + (later.effects + s.effects) == (first.effects + later.effects) + s.effects;
  }

  /**
   * Forcing: when the block manager answers "do not skip" to every forced
   * query, a walk that ends well indexed every block of the range to the end.
   */
  lemma {:induction false} ForcedRangeProcessesAll(cfg: PontosConfig, env: RangeEnv, m: Managers,
                                                   status: map<nat, BlockInfo>, n: nat, last: nat)
    requires forall st, k :: env.shouldSkipIndexing(st, k, cfg.indexerVersion, true) == Ok(false)
    requires IndexFrom(cfg, env, m, true, status, n, last).outcome.Ok?
    ensures var r := IndexFrom(cfg, env, m, true, status, n, last);
      forall k :: n <= k <= last ==> FullyIndexed(cfg, env, m, r, k)
    decreases last + 1 - n
  {
    if n <= last {
      var s := IndexBlock(cfg, env, m, true, status, n);
      assert s.outcome.Ok?;
      var rest := IndexFrom(cfg, env, m, true, s.status, n + 1, last);
      var r := Step(rest.outcome, s.effects + rest.effects, rest.status);
      assert IndexFrom(cfg, env, m, true, status, n, last) == r;
      IndexBlockOutcome(cfg, env, m, true, status, n);
      assert env.shouldSkipIndexing(status, n, cfg.indexerVersion, true) == Ok(false);
      ForcedRangeProcessesAll(cfg, env, m, s.status, n + 1, last);
      RangeAscending(cfg, env, m, true, s.status, n + 1, last);
      RangeWritesOnlyInRange(cfg, env, m, true, s.status, n + 1, last);
      // The first block was indexed, and the later blocks add no effect for it and leave its status alone.
      EffectsForWithin(s.effects, n, n, n);
      EffectsForWithin(rest.effects, n + 1, last, n);
      assert SameAt(rest.status, s.status, n);
      FullyIndexedCompose(cfg, env, m, s, rest, r, n);
      forall k | n < k <= last
        ensures FullyIndexed(cfg, env, m, r, k)
      {
        EffectsForWithin(s.effects, n, n, k);
        FullyIndexedCompose(cfg, env, m, s, rest, r, k);
      }
    }
  }

  /** A fully indexed block stays so when the effects of the other blocks are put around its own. */
  lemma FullyIndexedCompose(cfg: PontosConfig, env: RangeEnv, m: Managers, s: Step, rest: Step, r: Step, k: nat)
    requires r.effects == s.effects + rest.effects && r.status == rest.status
    requires (FullyIndexed(cfg, env, m, s, k) && EffectsFor(rest.effects, k) == [] && SameAt(rest.status, s.status, k)) ||
             (EffectsFor(s.effects, k) == [] && FullyIndexed(cfg, env, m, rest, k))
    ensures FullyIndexed(cfg, env, m, r, k)
  {
    EffectsForSplits(s.effects, rest.effects, k);
  }

  /** How a block ended survives putting the effects of the other blocks around its own. */
  lemma OutcomeCompose(cfg: PontosConfig, env: RangeEnv, m: Managers, before: map<nat, BlockInfo>, s: Step, rest: Step, r: Step, k: nat)
    requires r.effects == s.effects + rest.effects && r.status == rest.status
    requires (BlockOutcome(cfg, env, m, before, s, k) && EffectsFor(rest.effects, k) == [] && SameAt(rest.status, s.status, k)) ||
             (EffectsFor(s.effects, k) == [] && SameAt(s.status, before, k) && BlockOutcome(cfg, env, m, s.status, rest, k))
    ensures BlockOutcome(cfg, env, m, before, r, k)
  {
    EffectsForSplits(s.effects, rest.effects, k);
  }

  /** Block `k` is `Terminated` under `version` in `status`. */
  ghost predicate TerminatedUnder(status: map<nat, BlockInfo>, k: nat, version: string)
  {
    k in status && status[k].status == Terminated && status[k].version == version
  }

  /**
   * The skip rule the block manager is documented to follow, taken here as a
   * hypothesis: without forcing, a block is skipped exactly when it is
   * already `Terminated` under the same version.
   */
  ghost predicate SkipsTerminated(env: RangeEnv, version: string)
  {
    forall status, k :: env.shouldSkipIndexing(status, k, version, false) == Ok(TerminatedUnder(status, k, version))
  }

  /** The skip queries of blocks `n` to `last`, in order. */
  function SkipQueries(n: nat, last: nat): seq<Effect>
    decreases last + 1 - n
  {
    if n > last then [] else [ShouldSkipIndexing(n)] + SkipQueries(n + 1, last)
  }

  /** Under the skip rule, a traversal that ends well leaves every block of the range `Terminated` under the version. */
  lemma {:induction false} RangeLeavesTerminated(cfg: PontosConfig, env: RangeEnv, m: Managers,
                                                 status: map<nat, BlockInfo>, n: nat, last: nat)
    requires SkipsTerminated(env, cfg.indexerVersion)
    requires IndexFrom(cfg, env, m, false, status, n, last).outcome.Ok?
    ensures var r := IndexFrom(cfg, env, m, false, status, n, last);
      forall k :: n <= k <= last ==> TerminatedUnder(r.status, k, cfg.indexerVersion)
    decreases last + 1 - n
  {
    if n <= last {
      var r := IndexFrom(cfg, env, m, false, status, n, last);
      var s := IndexBlock(cfg, env, m, false, status, n);
      IndexBlockOutcome(cfg, env, m, false, status, n);
      RangeLeavesTerminated(cfg, env, m, s.status, n + 1, last);
      RangeWritesOnlyInRange(cfg, env, m, false, s.status, n + 1, last);
      assert SameAt(r.status, s.status, n);
    }
  }

  /**
   * Under the skip rule, traversing a range whose blocks are all
   * `Terminated` under the version only asks the skip query of each block,
   * in order, and changes nothing.
   */
  lemma {:induction false} TerminatedRangeIsSkipped(cfg: PontosConfig, env: RangeEnv, m: Managers,
                                                    status: map<nat, BlockInfo>, n: nat, last: nat)
    requires SkipsTerminated(env, cfg.indexerVersion)
    requires forall k :: n <= k <= last ==> TerminatedUnder(status, k, cfg.indexerVersion)
    ensures IndexFrom(cfg, env, m, false, status, n, last) == Step(Ok(()), SkipQueries(n, last), status)
    decreases last + 1 - n
  {
    if n <= last {
      assert TerminatedUnder(status, n, cfg.indexerVersion);
      TerminatedRangeIsSkipped(cfg, env, m, status, n + 1, last);
    }
  }

  /**
   * Idempotence under the skip rule: running the same range again without
   * forcing, on the statuses the first run left, processes no event, writes
   * no status and only asks the skip query of each block.
   */
  lemma SecondRunSkipsEverything(cfg: PontosConfig, env: RangeEnv, m: Managers, status: map<nat, BlockInfo>, n: nat, last: nat)
    requires SkipsTerminated(env, cfg.indexerVersion)
    requires IndexFrom(cfg, env, m, false, status, n, last).outcome.Ok?
    ensures var first := IndexFrom(cfg, env, m, false, status, n, last);
      IndexFrom(cfg, env, m, false, first.status, n, last) == Step(Ok(()), SkipQueries(n, last), first.status)
  {
    var first := IndexFrom(cfg, env, m, false, status, n, last);
    RangeLeavesTerminated(cfg, env, m, status, n, last);
    TerminatedRangeIsSkipped(cfg, env, m, first.status, n, last);
  }
}
