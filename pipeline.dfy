/**
 * The event pipeline `process_events`: every event goes through contract
 * classification, the `Other` filter, event registration and token
 * registration; a failing stage drops that one event and nothing else.
 */
module Pipeline {
  import opened Types

  /**
   * The collaborators the pipeline calls, as oracles: the collection
   * manager's `identify_contract`, the event manager's
   * `format_and_register_event` and the token manager's
   * `format_and_register_token`.
   */
  datatype Managers = Managers(
    identifyContract: (Address, nat) -> Result<ContractType, AnyhowError>,
    formatAndRegisterEvent: (EmittedEvent, ContractType, nat) -> Result<TokenEvent, StorageError>,
    formatAndRegisterToken: TokenEvent -> Result<(), StorageError>)

  /** One call the pipeline makes on a manager. */
  datatype StageCall =
    | IdentifyContract(address: Address, block: nat)
    | FormatAndRegisterEvent(event: EmittedEvent, contractType: ContractType, blockTimestamp: nat)
    | FormatAndRegisterToken(tokenEvent: TokenEvent)

  /** The event's contract is classified without error and is not `Other`. */
  predicate IsRelevant(m: Managers, e: EmittedEvent, block: nat)
  {
    var classified := m.identifyContract(e.fromAddress, block);
    classified.Ok? && classified.value != Other
  }

  /** `e` passes classification and registration, and registration yields `te`. */
  predicate YieldsTokenEvent(m: Managers, e: EmittedEvent, block: nat, timestamp: nat, te: TokenEvent)
  {
    IsRelevant(m, e, block) &&
    m.formatAndRegisterEvent(e, m.identifyContract(e.fromAddress, block).value, timestamp) == Ok(te)
  }

  /** The calls one event causes, at `block` and `timestamp`. */
  function EventCalls(m: Managers, e: EmittedEvent, block: nat, timestamp: nat): seq<StageCall>
  {
    [IdentifyContract(e.fromAddress, block)] +
    (match m.identifyContract(e.fromAddress, block)
     case Err(_) => []
     case Ok(contractType) =>
       if contractType == Other then []
       else
         [FormatAndRegisterEvent(e, contractType, timestamp)] +
         (match m.formatAndRegisterEvent(e, contractType, timestamp)
          case Err(_) => []
          case Ok(te) => [FormatAndRegisterToken(te)]))
  }

  /** The calls the pipeline makes for `events`, in order. */
  function PipelineCalls(m: Managers, events: seq<EmittedEvent>, block: nat, timestamp: nat): seq<StageCall>
    decreases |events|
  {
    if events == [] then []
    else PipelineCalls(m, events[..|events| - 1], block, timestamp) + EventCalls(m, events[|events| - 1], block, timestamp)
  }

  /**
   * `process_events`: runs every event through the four stages; an error in a
   * stage skips the rest of that event only, and the result is always `Ok`.
   */
  method ProcessEvents(m: Managers, events: seq<EmittedEvent>, block: nat, timestamp: nat)
    returns (res: Result<(), IndexerError>, calls: seq<StageCall>)
    ensures res == Ok(())
    ensures calls == PipelineCalls(m, events, block, timestamp)
  {
    calls := [];
    var i := 0;
    while i < |events|
      invariant i <= |events|
      invariant calls == PipelineCalls(m, events[..i], block, timestamp)
    {
      var e := events[i];
      assert events[..i + 1][..i] == events[..i];
      i := i + 1;
      calls := calls + [IdentifyContract(e.fromAddress, block)];
      var classified := m.identifyContract(e.fromAddress, block);
      if classified.Err? {
        continue;
      }
      var contractType := classified.value;
      if contractType == Other {
        continue;
      }
      calls := calls + [FormatAndRegisterEvent(e, contractType, timestamp)];
      var registered := m.formatAndRegisterEvent(e, contractType, timestamp);
      if registered.Err? {
        continue;
      }
      calls := calls + [FormatAndRegisterToken(registered.value)];
      var tokenRegistered := m.formatAndRegisterToken(registered.value);
      if tokenRegistered.Err? {
        continue;
      }
    }
    assert events[..|events|] == events;
    res := Ok(());
  }

  /**
   * Events are handled independently: the calls for `a + b` are those for
   * `a` followed by those for `b`, whatever failed while handling `a`.
   */
  lemma {:induction false} PipelineSplits(m: Managers, a: seq<EmittedEvent>, b: seq<EmittedEvent>, block: nat, timestamp: nat)
    ensures PipelineCalls(m, a + b, block, timestamp) == PipelineCalls(m, a, block, timestamp) + PipelineCalls(m, b, block, timestamp)
    decreases |b|
  {
    if b == [] {
      assert a + b == a;
    } else {
      var init := b[..|b| - 1];
      assert (a + b)[..|a + b| - 1] == a + init;
      assert (a + b)[|a + b| - 1] == b[|b| - 1];
      PipelineSplits(m, a, init, block, timestamp);
    }
  }

  /** Every event of the list is classified: no failure of an earlier event stops a later one. */
  lemma {:induction false} EveryEventClassified(m: Managers, events: seq<EmittedEvent>, block: nat, timestamp: nat)
    ensures forall k :: 0 <= k < |events| ==>
      IdentifyContract(events[k].fromAddress, block) in PipelineCalls(m, events, block, timestamp)
    ensures forall c :: c in PipelineCalls(m, events, block, timestamp) && c.IdentifyContract? ==>
      c.block == block && exists k :: 0 <= k < |events| && events[k].fromAddress == c.address
    decreases |events|
  {
    if events != [] {
      var init := events[..|events| - 1];
      var last := events[|events| - 1];
      EveryEventClassified(m, init, block, timestamp);
      var calls := PipelineCalls(m, events, block, timestamp);
      forall k | 0 <= k < |events|
        ensures IdentifyContract(events[k].fromAddress, block) in calls
      {
        if k < |init| {
          assert events[k] == init[k];
        } else {
          assert EventCalls(m, last, block, timestamp)[0] == IdentifyContract(last.fromAddress, block);
        }
      }
      forall c | c in calls && c.IdentifyContract?
        ensures c.block == block && exists k :: 0 <= k < |events| && events[k].fromAddress == c.address
      {
        if c in PipelineCalls(m, init, block, timestamp) {
          var k :| 0 <= k < |init| && init[k].fromAddress == c.address;
          assert events[k] == init[k];
        } else {
          assert events[|events| - 1].fromAddress == c.address;
        }
      }
    }
  }

  /**
   * An event reaches `format_and_register_event` exactly when its
   * classification succeeds with a type other than `Other`, and then with the
   * block timestamp and the resolved type.
   */
  lemma {:induction false} RegistersExactlyRelevantEvents(m: Managers, events: seq<EmittedEvent>, block: nat, timestamp: nat,
                                                          e: EmittedEvent, ct: ContractType, t: nat)
    ensures FormatAndRegisterEvent(e, ct, t) in PipelineCalls(m, events, block, timestamp) <==>
      e in events && IsRelevant(m, e, block) && m.identifyContract(e.fromAddress, block).value == ct && t == timestamp
    decreases |events|
  {
    if events != [] {
      var init := events[..|events| - 1];
      var last := events[|events| - 1];
      RegistersExactlyRelevantEvents(m, init, block, timestamp, e, ct, t);
      assert events == init + [last];
    }
  }

  /**
   * `format_and_register_token` is called with `te` exactly when some event of
   * the list passed classification and registration and registration yielded `te`.
   */
  lemma {:induction false} RegistersTokenOnlyAfterEvent(m: Managers, events: seq<EmittedEvent>, block: nat, timestamp: nat, te: TokenEvent)
    ensures FormatAndRegisterToken(te) in PipelineCalls(m, events, block, timestamp) <==>
      exists e :: e in events && YieldsTokenEvent(m, e, block, timestamp, te)
    decreases |events|
  {
    if events != [] {
      var init := events[..|events| - 1];
      var last := events[|events| - 1];
      RegistersTokenOnlyAfterEvent(m, init, block, timestamp, te);
      assert events == init + [last];
      var lastCalls := EventCalls(m, last, block, timestamp);
      if FormatAndRegisterToken(te) in lastCalls {
        assert YieldsTokenEvent(m, last, block, timestamp, te);
      }
      if YieldsTokenEvent(m, last, block, timestamp, te) {
        assert lastCalls[2] == FormatAndRegisterToken(te);
      }
      if exists e :: e in events && YieldsTokenEvent(m, e, block, timestamp, te) {
        var e :| e in events && YieldsTokenEvent(m, e, block, timestamp, te);
        if e != last {
          assert e in init;
        }
      }
    }
  }
}
