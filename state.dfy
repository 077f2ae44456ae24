/**
 * The canister's state: the configuration fixed at install time, the event
 * store (logs waiting to be processed and logs already processed, both keyed
 * by the log's source), the set of running periodic tasks, the signing
 * identity and the last nonce used for an outbound transaction.
 *
 * `StateValue` is the value of the state at one moment; the class `State`
 * is the mutable object the canister keeps, and `State.Value()` reads it
 * back as a `StateValue`.  Every operation is given as a function from the
 * old value to the new value and an outcome; the methods are proved to
 * change the object exactly as those functions say.
 *
 * A Rust panic halts the operation: it is the outcome `Err(p)` with a
 * `Panic` reason, and the state is whatever the operation had written
 * before the panic.
 */
module CanisterState {
  import opened Wrappers
  import opened Primitives

  /** Which EVM RPC endpoint to use; the transport itself is not modelled. */
  datatype RpcService = RpcService(descriptor: string)

  datatype EcdsaCurve = Secp256k1

  datatype EcdsaKeyId = EcdsaKeyId(curve: EcdsaCurve, name: string)

  /** The threshold-ECDSA signer; only its key name and derived address are visible here. */
  datatype IcpSigner = IcpSigner(keyName: string, address: Address)

  /** An EVM log entry as the RPC provider delivers it. */
  datatype Log = Log(
    address: Address,
    topics: seq<Hash32>,
    data: seq<byte>,
    transactionHash: Option<Hash32>,
    logIndex: Option<u64>)

  /** The unique identity of a log: the transaction that emitted it and its index. */
  datatype LogSource = LogSource(transactionHash: Hash32, logIndex: u64)

  datatype TaskType = ProcessLogs | ScrapeLogs

  /** Why an operation panicked. */
  datatype Panic =
    | LogIsPending                       // a log without transaction hash or log index
    | DuplicateEvent(source: LogSource)  // recording a source that is already waiting
    | EventAlreadyProcessed(source: LogSource)
    | UnknownEvent(source: LogSource)    // running a job for a source that is not waiting
    | JobRunTwice(source: LogSource)
    | DecodeFailed(source: LogSource)    // the log is not a `NewJob` event
    | SignerMissing
    | EvmAddressMissing
    | ProbeFailed                        // the transaction-by-hash query itself failed
    | NoFilterAddress                    // `read_result` indexes an empty address list
    | ReadFailed                         // the `getResult` call failed
    | WatchLogsFailed
    | PollerStartFailed

  datatype StateValue = StateValue(
    rpcService: RpcService,
    chainId: u64,
    coprocessorEvmAddress: Address,
    filterAddresses: seq<Address>,
    filterEvents: seq<string>,
    logsToProcess: map<LogSource, Log>,
    processedLogs: map<LogSource, Log>,
    activeTasks: set<TaskType>,
    signer: Option<IcpSigner>,
    ecdsaKeyId: EcdsaKeyId,
    canisterEvmAddress: Option<Address>,
    nonce: Option<u64>)

  /** The source of a log; a log still in a pending block has no hash or index, and that panics. */
  function Source(log: Log): (r: Result<LogSource, Panic>)
    ensures r.Ok? <==> log.transactionHash.Some? && log.logIndex.Some?
    ensures r.Ok? ==>
              r.value.transactionHash == log.transactionHash.value && r.value.logIndex == log.logIndex.value
    ensures r.Err? ==> r.error == LogIsPending
  {
    match (log.transactionHash, log.logIndex)
    case (Some(h), Some(i)) => Ok(LogSource(h, i))
    case _ => Err(LogIsPending)
  }

  // ---------------------------------------------------------------------
  // The order of `LogSource`: derived `Ord`, so the hash bytes compare
  // lexicographically first and the log index breaks ties.
  // ---------------------------------------------------------------------

  predicate BytesLess(a: seq<byte>, b: seq<byte>)
    requires |a| == |b|
  {
    |a| > 0 && (a[0] < b[0] || (a[0] == b[0] && BytesLess(a[1..], b[1..])))
  }

  predicate SourceLess(a: LogSource, b: LogSource): (r: bool)
    ensures r ==> a != b
  {
    BytesLessIrreflexive(a.transactionHash);
    || BytesLess(a.transactionHash, b.transactionHash)
    || (a.transactionHash == b.transactionHash && a.logIndex < b.logIndex)
  }

  lemma {:induction false} BytesLessIrreflexive(a: seq<byte>)
    ensures !BytesLess(a, a)
  {
    if |a| > 0 { BytesLessIrreflexive(a[1..]); }
  }

  lemma {:induction false} BytesLessTransitive(a: seq<byte>, b: seq<byte>, c: seq<byte>)
    requires |a| == |b| == |c|
    requires BytesLess(a, b) && BytesLess(b, c)
    ensures BytesLess(a, c)
  {
    if a[0] == b[0] && b[0] == c[0] {
      BytesLessTransitive(a[1..], b[1..], c[1..]);
    }
  }

  lemma {:induction false} BytesLessTotal(a: seq<byte>, b: seq<byte>)
    requires |a| == |b|
    ensures a == b || BytesLess(a, b) || BytesLess(b, a)
  {
    if |a| > 0 && a[0] == b[0] {
      BytesLessTotal(a[1..], b[1..]);
      if a[1..] == b[1..] {
        assert a == [a[0]] + a[1..] && b == [b[0]] + b[1..];
      }
    }
  }

  /** `SourceLess` is a strict total order, so the store's key order is well defined. */
  lemma SourceLessIsStrictTotalOrder(a: LogSource, b: LogSource, c: LogSource)
    ensures !SourceLess(a, a)
    ensures SourceLess(a, b) ==> !SourceLess(b, a)
    ensures SourceLess(a, b) && SourceLess(b, c) ==> SourceLess(a, c)
    ensures a == b || SourceLess(a, b) || SourceLess(b, a)
  {
    BytesLessIrreflexive(a.transactionHash);
    BytesLessTotal(a.transactionHash, b.transactionHash);
    if BytesLess(a.transactionHash, b.transactionHash) && BytesLess(b.transactionHash, a.transactionHash) {
      BytesLessTransitive(a.transactionHash, b.transactionHash, a.transactionHash);
    }
    if SourceLess(a, b) && SourceLess(b, c) {
      if BytesLess(a.transactionHash, b.transactionHash) && BytesLess(b.transactionHash, c.transactionHash) {
        BytesLessTransitive(a.transactionHash, b.transactionHash, c.transactionHash);
      }
    }
  }

  /** Every order position is strictly greater than the ones before it. */
  ghost predicate Ascending(order: seq<LogSource>) {
    forall i, j :: 0 <= i < j < |order| ==> SourceLess(order[i], order[j])
  }

  // ---------------------------------------------------------------------
  // The event store.
  // ---------------------------------------------------------------------

  /** Each stored log sits under its own source. */
  ghost predicate KeyedBySource(m: map<LogSource, Log>) {
    forall k :: k in m ==> Source(m[k]) == Ok(k)
  }

  /** No source is both waiting and processed, and every log is keyed by its source. */
  ghost predicate StoreInvariant(v: StateValue) {
    && v.logsToProcess.Keys !! v.processedLogs.Keys
    && KeyedBySource(v.logsToProcess)
    && KeyedBySource(v.processedLogs)
  }

  /**
   * `record_log_to_process`: the log goes into the waiting map under its
   * source; a source already waiting or already processed panics.
   */
  function AfterRecordLog(v: StateValue, log: Log): (r: (StateValue, Result<(), Panic>))
    ensures r.0 == v.(logsToProcess := r.0.logsToProcess)
    ensures r.1.Ok? <==> Source(log).Ok? && Source(log).value !in v.logsToProcess
                                         && Source(log).value !in v.processedLogs
    ensures r.1.Err? ==> r.0 == v
    ensures Source(log).Err? ==> r.1 == Err(LogIsPending)
    ensures Source(log).Ok? && Source(log).value in v.logsToProcess ==>
              r.1 == Err(DuplicateEvent(Source(log).value))
    ensures Source(log).Ok? && Source(log).value !in v.logsToProcess
                            && Source(log).value in v.processedLogs ==>
              r.1 == Err(EventAlreadyProcessed(Source(log).value))
    ensures r.1.Ok? ==>
              && r.0.logsToProcess.Keys == v.logsToProcess.Keys + {Source(log).value}
              && r.0.logsToProcess[Source(log).value] == log
              && forall k :: k in v.logsToProcess ==> r.0.logsToProcess[k] == v.logsToProcess[k]
    ensures StoreInvariant(v) ==> StoreInvariant(r.0)
  {
    match Source(log)
    case Err(p) => (v, Err(p))
    case Ok(source) =>
      if source in v.logsToProcess then (v, Err(DuplicateEvent(source)))
      else if source in v.processedLogs then (v, Err(EventAlreadyProcessed(source)))
      else (v.(logsToProcess := v.logsToProcess[source := log]), Ok(()))
  }

  /**
   * `record_processed_log`: the waiting log moves to the processed map under
   * the same source.  An unknown source panics before anything changes; a
   * source already processed panics after the move (the insert overwrote it).
   */
  function AfterRecordProcessed(v: StateValue, source: LogSource): (r: (StateValue, Result<(), Panic>))
    ensures r.0 == v.(logsToProcess := r.0.logsToProcess, processedLogs := r.0.processedLogs)
    ensures source !in v.logsToProcess ==> r == (v, Err(UnknownEvent(source)))
    ensures source in v.logsToProcess ==>
              && r.0.logsToProcess.Keys == v.logsToProcess.Keys - {source}
              && r.0.processedLogs.Keys == v.processedLogs.Keys + {source}
              && r.0.processedLogs[source] == v.logsToProcess[source]
              && (forall k :: k in r.0.logsToProcess ==> r.0.logsToProcess[k] == v.logsToProcess[k])
              && (forall k :: k in v.processedLogs && k != source ==> r.0.processedLogs[k] == v.processedLogs[k])
    ensures r.1.Ok? <==> source in v.logsToProcess && source !in v.processedLogs
    ensures StoreInvariant(v) ==> StoreInvariant(r.0)
  {
    if source !in v.logsToProcess then (v, Err(UnknownEvent(source)))
    else
      var log := v.logsToProcess[source];
      var moved := v.(logsToProcess := v.logsToProcess - {source},
                      processedLogs := v.processedLogs[source := log]);
      if source in v.processedLogs then (moved, Err(JobRunTwice(source))) else (moved, Ok(()))
  }

  /** Under the store invariant the "job run twice" check never fires. */
  lemma JobRunTwiceUnreachable(v: StateValue, source: LogSource)
    requires StoreInvariant(v) && source in v.logsToProcess
    ensures AfterRecordProcessed(v, source).1 == Ok(())
  {
  }

  /** Once processed, a source stays processed and can never be recorded as waiting again. */
  lemma ProcessedIsFinal(v: StateValue, log: Log, source: LogSource)
    requires StoreInvariant(v) && Source(log).Ok? && Source(log).value in v.processedLogs
    ensures AfterRecordLog(v, log).1 == Err(EventAlreadyProcessed(Source(log).value))
    ensures Source(log).value in AfterRecordProcessed(v, source).0.processedLogs
  {
  }

  // ---------------------------------------------------------------------
  // The mutable state object.
  // ---------------------------------------------------------------------

  class State {
    var rpcService: RpcService
    var chainId: u64
    var coprocessorEvmAddress: Address
    var filterAddresses: seq<Address>
    var filterEvents: seq<string>
    var logsToProcess: map<LogSource, Log>
    var processedLogs: map<LogSource, Log>
    var activeTasks: set<TaskType>
    var signer: Option<IcpSigner>
    var ecdsaKeyId: EcdsaKeyId
    var canisterEvmAddress: Option<Address>
    var nonce: Option<u64>

    /** The state as a value. */
    function Value(): StateValue
      reads this
    {
      StateValue(rpcService, chainId, coprocessorEvmAddress, filterAddresses, filterEvents,
                 logsToProcess, processedLogs, activeTasks, signer, ecdsaKeyId,
                 canisterEvmAddress, nonce)
    }

    /** `initialize_state`: the state object takes the given value. */
    constructor (v: StateValue)
      ensures Value() == v
    {
      rpcService := v.rpcService;
      chainId := v.chainId;
      coprocessorEvmAddress := v.coprocessorEvmAddress;
      filterAddresses := v.filterAddresses;
      filterEvents := v.filterEvents;
      logsToProcess := v.logsToProcess;
      processedLogs := v.processedLogs;
      activeTasks := v.activeTasks;
      signer := v.signer;
      ecdsaKeyId := v.ecdsaKeyId;
      canisterEvmAddress := v.canisterEvmAddress;
      nonce := v.nonce;
    }

    method RecordLogToProcess(log: Log) returns (r: Result<(), Panic>)
      modifies this`logsToProcess
      ensures (Value(), r) == AfterRecordLog(old(Value()), log)
    {
      var source := Source(log);
      if source.Err? {
        return Err(source.error);
      }
      if source.value in logsToProcess {
        return Err(DuplicateEvent(source.value));
      }
      if source.value in processedLogs {
        return Err(EventAlreadyProcessed(source.value));
      }
      logsToProcess := logsToProcess[source.value := log];
      r := Ok(());
    }

    method RecordProcessedLog(source: LogSource) returns (r: Result<(), Panic>)
      modifies this`logsToProcess, this`processedLogs
      ensures (Value(), r) == AfterRecordProcessed(old(Value()), source)
    {
      if source !in logsToProcess {
        return Err(UnknownEvent(source));
      }
      var log := logsToProcess[source];
      logsToProcess := logsToProcess - {source};
      var wasProcessed := source in processedLogs;
      processedLogs := processedLogs[source := log];
      if wasProcessed {
        return Err(JobRunTwice(source));
      }
      r := Ok(());
    }

    function HasLogsToProcess(): (r: bool)
      reads this
      ensures r <==> exists k :: k in logsToProcess
    {
      logsToProcess != map[]
    }

    function KeyId(): EcdsaKeyId
      reads this
    {
      ecdsaKeyId
    }

    function GetFilterAddresses(): seq<Address>
      reads this
    {
      filterAddresses
    }

    function GetFilterEvents(): seq<string>
      reads this
    {
      filterEvents
    }

    /**
     * Creating a `TimerGuard`: succeeds exactly when no instance of the
     * task is running, and marks the task as running.
     */
    method AcquireGuard(task: TaskType) returns (acquired: bool)
      modifies this`activeTasks
      ensures acquired <==> task !in old(activeTasks)
      ensures activeTasks == old(activeTasks) + {task}
    {
      acquired := task !in activeTasks;
      activeTasks := activeTasks + {task};
    }
  }
}
