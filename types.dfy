/**
 * Identifiers, chain events, block-status records and the indexer's error
 * taxonomy, shared by every part of the Pontos orchestrator model.
 */
module Types {
  /** A transaction hash, a contract address and a raw field element. */
  type Hash = nat
  type Address = nat
  type Felt = nat

  /** Largest value of the `u64` counter the range traversal runs on. */
  const U64_MAX: nat := 0xFFFF_FFFF_FFFF_FFFF

  datatype Result<+T, +E> = Ok(value: T) | Err(error: E)

  /** A raw event emitted by a contract, as the chain client delivers it. */
  datatype EmittedEvent = EmittedEvent(fromAddress: Address, keys: seq<Felt>, data: seq<Felt>, txHash: Hash)

  /** What the collection manager resolves a contract to; events of an `Other` contract are ignored. */
  datatype ContractType = Erc721 | Erc1155 | Other

  /**
   * The normalized event the event manager registers and hands to the token
   * manager; its decoded action and token identity are kept abstract as felts.
   */
  datatype TokenEvent = TokenEvent(contractType: ContractType, blockTimestamp: nat, detail: seq<Felt>)

  /** Indexing status of a block, tagged with the indexer version and identifier that wrote it. */
  datatype BlockIndexingStatus = None | Processing | Terminated
  datatype BlockInfo = BlockInfo(status: BlockIndexingStatus, version: string, identifier: string)

  /** The engine's immutable configuration. */
  datatype PontosConfig = PontosConfig(indexerVersion: string, indexerIdentifier: string)

  /** An error of the storage backend; its variants are not part of this model. */
  datatype StorageError = StorageError(code: nat)

  /** A generic error (chain client and everything else), known by its rendered message. */
  datatype AnyhowError = AnyhowError(message: string)

  /** The two kinds of error the public operations return. */
  datatype IndexerError = Storage(error: StorageError) | Anyhow(message: string)

  /** `From<StorageError>`: the storage error is kept as it is. */
  function FromStorageError(e: StorageError): IndexerError
  {
    Storage(e)
  }

  /** `From<anyhow::Error>`: only the rendered message survives. */
  function FromAnyhow(e: AnyhowError): IndexerError
  {
    Anyhow(e.message)
  }

  /** The conversions keep the kind of the error and its content, and never confuse the two kinds. */
  lemma ConversionsKeepOrigin(s: StorageError, a: AnyhowError)
    ensures FromStorageError(s).Storage? && FromStorageError(s).error == s
    ensures FromAnyhow(a).Anyhow? && FromAnyhow(a).message == a.message
    ensures FromStorageError(s) != FromAnyhow(a)
  {
  }
}
