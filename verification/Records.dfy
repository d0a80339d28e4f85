/** The values that travel between scanner, store and delivery worker (internal/core). */
module Records {
  import opened Common
  import opened Chain

  datatype EventId = EventId(tx: Hash, logIndex: nat)

  datatype RawLog = RawLog(
    blockNumber: nat, blockHash: Hash, tx: Hash, logIndex: nat,
    address: nat, topics: seq<Hash>, data: seq<nat>)
  {
    function Id(): EventId { EventId(tx, logIndex) }
  }

  function RawOf(log: Log): RawLog {
    RawLog(log.blockNumber, log.blockHash, log.tx, log.index, log.address, log.topics, log.data)
  }

  function IdOf(log: Log): EventId {
    EventId(log.tx, log.index)
  }

  datatype Event = Event(
    id: EventId, blockNumber: nat, blockHash: Hash, address: nat, name: nat, signature: nat,
    topics: seq<Hash>, data: seq<nat>, payload: seq<nat>)

  /** A row of the events table: duplicates are compared on everything but the observation time. */
  datatype EventRow = EventRow(event: Event, observedAt: int)

  datatype Checkpoint = Checkpoint(number: nat, hash: Hash)

  datatype CanonicalBlock = CanonicalBlock(number: nat, hash: Hash, parent: Hash)

  datatype Destination = Destination(locator: nat, authentication: nat)

  /** An outbox row as the processor proposes it. */
  datatype NewDelivery = NewDelivery(event: EventId, destination: Destination, nextAttempt: int)

  datatype Filter = Filter(addresses: seq<nat>, topics: seq<seq<Hash>>)

  predicate MatchesFilter(log: Log, f: Filter) {
    && (|f.addresses| > 0 ==> log.address in f.addresses)
    && (forall p | 0 <= p < |f.topics| && |f.topics[p]| > 0 ::
          p < |log.topics| && log.topics[p] in f.topics[p])
  }

  datatype Decoded = Unconfigured | Undecodable | DecodedAs(event: Event)

  /** ABI decoding and routing, taken as fixed functions of the configuration. */
  datatype Decoder = Decoder(decode: RawLog -> Decoded, route: Event -> Option<seq<Destination>>)

  /** Decoding keeps the identity and the position of the log. */
  ghost predicate KeepsIdentity(d: Decoder) {
    forall raw :: d.decode(raw).DecodedAs? ==>
      var e := d.decode(raw).event;
      e.id == raw.Id() && e.blockNumber == raw.blockNumber && e.blockHash == raw.blockHash
  }

  datatype Options = Options(
    startBlock: nat, batchSize: nat, confirmations: nat, reorgDepth: nat, filter: Filter)

  /** The numeric ranges every stored listener is validated against (rpclistener.go:548). */
  predicate ValidOptions(o: Options) {
    && o.startBlock <= MAX_INT64
    && 1 <= o.batchSize <= MAX_INT64
    && o.confirmations <= MAX_INT64
    && 1 <= o.reorgDepth <= MAX_INT64
  }

  datatype Error =
    | RpcFailure | InvalidLog | OutsideFilter | MissingBlock | NotDescending | HashChanged | ConflictingLogs
    | DecodeFailure | NoRoute
    | OutOfRange | EventConflict | UnknownEvent | DuplicateBlockHash | CheckpointMissing | HistoryLimit
    | NotFound | MissingToken | InvalidLimit | AlreadyRunning
    | InvalidId | InvalidLocator | UnsafeUrl | UnsafeCredentials
    | RangeTooLarge | HistoryConflict | ActiveBackfill | BackfillState | SkipConflict | RevisionConflict
}
