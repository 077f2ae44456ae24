/**
 * One job: the log's source is first moved from waiting to processed, then
 * the log is decoded as a `NewJob` event, the 20th Fibonacci number is
 * computed and rendered in decimal, the result is submitted for the job id
 * the event carries, and finally the contract is read back.
 *
 * The decoder (`log_decode`) and the Fibonacci function are parameters;
 * the outcome of the read-back call is an input.
 */
module Jobs {
  import opened Wrappers
  import opened Primitives
  import opened CanisterState
  import opened ResultSubmission

  /** The argument `job` passes to `fibonacci`. */
  const FIBONACCI_INDEX: nat := 20

  datatype JobRpc = JobRpc(submit: SubmitRpc, readOk: bool)

  datatype JobReport = JobReport(source: LogSource, jobId: u256, submission: SubmitReport)

  // ---------------------------------------------------------------------
  // Decimal rendering (`to_string` on an unsigned integer).
  // ---------------------------------------------------------------------

  function DigitChar(d: nat): (c: char)
    requires d < 10
    ensures '0' <= c <= '9'
  {
    (d + '0' as int) as char
  }

  function DecimalString(n: nat): (s: string)
    ensures |s| > 0 && forall i :: 0 <= i < |s| ==> '0' <= s[i] <= '9'
    ensures n > 0 ==> s[0] != '0'
    ensures n == 0 ==> s == "0"
  {
    if n < 10 then [DigitChar(n)] else DecimalString(n / 10) + [DigitChar(n % 10)]
  }

  /** The number a string of decimal digits denotes. */
  function DecimalValue(s: string): nat
    requires forall i :: 0 <= i < |s| ==> '0' <= s[i] <= '9'
  {
    if s == [] then 0 else 10 * DecimalValue(s[..|s| - 1]) + (s[|s| - 1] as int - '0' as int)
  }

  /** Rendering in decimal loses nothing: the digits denote the number rendered. */
  lemma {:induction false} DecimalRoundTrip(n: nat)
    ensures DecimalValue(DecimalString(n)) == n
  {
    var s := DecimalString(n);
    if n >= 10 {
      DecimalRoundTrip(n / 10);
      assert s[..|s| - 1] == DecimalString(n / 10);
    }
  }

  // ---------------------------------------------------------------------
  // The job.
  // ---------------------------------------------------------------------

  /**
   * `read_result`: reads the result back from the first filter address; an
   * empty address list or a failed call panics.
   */
  function ReadResult(filterAddresses: seq<Address>, readOk: bool): (r: Result<(), Panic>)
    ensures r.Ok? <==> |filterAddresses| > 0 && readOk
    ensures |filterAddresses| == 0 ==> r == Err(NoFilterAddress)
  {
    if |filterAddresses| == 0 then Err(NoFilterAddress)
    else if !readOk then Err(ReadFailed)
    else Ok(())
  }

  /** The value every job submits. */
  function JobResult(fibonacci: nat -> nat): string {
    DecimalString(fibonacci(FIBONACCI_INDEX))
  }

  /** With the real Fibonacci function, whose 20th value is 6765, every job submits the text "6765". */
  lemma SubmittedText(fibonacci: nat -> nat)
    requires fibonacci(FIBONACCI_INDEX) == 6765
    ensures JobResult(fibonacci) == "6765"
  {
    assert DecimalString(6) == "6";
    assert DecimalString(67) == DecimalString(6) + "7";
    assert DecimalString(676) == DecimalString(67) + "6";
    assert DecimalString(6765) == DecimalString(676) + "5";
  }

  /** `job(log_source, log)`. */
  function AfterJob(v: StateValue, source: LogSource, log: Log, decode: Log -> Option<u256>,
                    fibonacci: nat -> nat, rpc: JobRpc): (r: (StateValue, Result<JobReport, Panic>))
    ensures r.0 == v.(logsToProcess := r.0.logsToProcess, processedLogs := r.0.processedLogs, nonce := r.0.nonce)
    // marking comes first: an unknown source stops the job before anything else
    ensures source !in v.logsToProcess ==> r == (v, Err(UnknownEvent(source)))
    // and once marked, the source stays processed whatever happens next
    ensures source in v.logsToProcess ==>
              (r.0.logsToProcess, r.0.processedLogs)
              == (v.logsToProcess - {source}, v.processedLogs[source := v.logsToProcess[source]])
    ensures r.1.Ok? ==> r.1.value.source == source
    ensures StoreInvariant(v) ==> StoreInvariant(r.0)
  {
    var (marked, recorded) := AfterRecordProcessed(v, source);
    if recorded.Err? then (marked, Err(recorded.error))
    else
      match decode(log)
      case None => (marked, Err(DecodeFailed(source)))
      case Some(jobId) =>
        var (submitted, report) := AfterSubmit(marked, JobResult(fibonacci), jobId, rpc.submit);
        if report.Err? then (submitted, Err(report.error))
        else
          match ReadResult(submitted.filterAddresses, rpc.readOk)
          case Err(p) => (submitted, Err(p))
          case Ok(_) => (submitted, Ok(JobReport(source, jobId, report.value)))
  }

  /** Under the store invariant a job for a waiting source never finds it already processed. */
  lemma JobNeverRunsTwice(v: StateValue, source: LogSource, log: Log, decode: Log -> Option<u256>,
                          fibonacci: nat -> nat, rpc: JobRpc)
    requires StoreInvariant(v) && source in v.logsToProcess
    ensures !AfterJob(v, source, log, decode, fibonacci, rpc).1.Err?
            || !AfterJob(v, source, log, decode, fibonacci, rpc).1.error.JobRunTwice?
  {
    JobRunTwiceUnreachable(v, source);
  }

  /** A log that is not a `NewJob` event is processed, and nothing is submitted for it. */
  lemma UndecodableLogIsDropped(v: StateValue, source: LogSource, log: Log, decode: Log -> Option<u256>,
                                fibonacci: nat -> nat, rpc: JobRpc)
    requires source in v.logsToProcess && source !in v.processedLogs && decode(log).None?
    ensures var (after, r) := AfterJob(v, source, log, decode, fibonacci, rpc);
            r == Err(DecodeFailed(source)) && after.nonce == v.nonce && source in after.processedLogs
  {
  }

  /** A successful job submitted the 20th Fibonacci number for the job id its event carries. */
  lemma JobSubmitsFibonacci(v: StateValue, source: LogSource, log: Log, decode: Log -> Option<u256>,
                            fibonacci: nat -> nat, rpc: JobRpc)
    requires AfterJob(v, source, log, decode, fibonacci, rpc).1.Ok?
    ensures var report := AfterJob(v, source, log, decode, fibonacci, rpc).1.value;
            && decode(log).Some?
            && report.jobId == decode(log).value
            && report.submission.tx.jobId == decode(log).value
            && report.submission.tx.result == JobResult(fibonacci)
            && DecimalValue(report.submission.tx.result) == fibonacci(FIBONACCI_INDEX)
  {
    DecimalRoundTrip(fibonacci(FIBONACCI_INDEX));
  }

  /**
   * Only a confirmed submission moves the nonce, and the read-back runs
   * after the submission: a failing read does not undo it.
   */
  lemma JobNonce(v: StateValue, source: LogSource, log: Log, decode: Log -> Option<u256>,
                 fibonacci: nat -> nat, rpc: JobRpc)
    ensures var (after, r) := AfterJob(v, source, log, decode, fibonacci, rpc);
            && (after.nonce != v.nonce ==>
                  && decode(log).Some?
                  && rpc.submit.send.Sent? && rpc.submit.probe == TransactionFound
                  && after.nonce == Some(NextNonce(v.nonce, rpc.submit.transactionCount)))
            && (r in {Err(NoFilterAddress), Err(ReadFailed)} ==>
                  after.nonce == if rpc.submit.send.Sent? && rpc.submit.probe == TransactionFound
                                 then Some(NextNonce(v.nonce, rpc.submit.transactionCount)) else v.nonce)
  {
  }

  /**
   * A job for a waiting source, with a signer and an address, whose log
   * decodes and whose transaction is sent and found: it succeeds, its
   * transaction takes the next nonce, and that nonce is stored.
   */
  lemma ConfirmedJob(v: StateValue, source: LogSource, log: Log, decode: Log -> Option<u256>,
                     fibonacci: nat -> nat, rpc: JobRpc)
    requires source in v.logsToProcess && source !in v.processedLogs
    requires v.signer.Some? && v.canisterEvmAddress.Some? && |v.filterAddresses| > 0
    requires decode(log).Some? && rpc.submit.send.Sent? && rpc.submit.probe == TransactionFound && rpc.readOk
    ensures var (after, r) := AfterJob(v, source, log, decode, fibonacci, rpc);
            && r.Ok?
            && r.value.submission.status.Confirmed?
            && r.value.submission.tx.nonce == NextNonce(v.nonce, rpc.submit.transactionCount)
            && after.nonce == Some(r.value.submission.tx.nonce)
  {
    var (marked, recorded) := AfterRecordProcessed(v, source);
    assert recorded.Ok?;
    assert marked.signer == v.signer && marked.canisterEvmAddress == v.canisterEvmAddress;
    assert marked.nonce == v.nonce && marked.filterAddresses == v.filterAddresses;
  }

  method Job(s: State, source: LogSource, log: Log, decode: Log -> Option<u256>,
             fibonacci: nat -> nat, rpc: JobRpc) returns (r: Result<JobReport, Panic>)
    modifies s`logsToProcess, s`processedLogs, s`nonce
    ensures (s.Value(), r) == AfterJob(old(s.Value()), source, log, decode, fibonacci, rpc)
  {
    var recorded := s.RecordProcessedLog(source);
    if recorded.Err? {
      return Err(recorded.error);
    }
    var newJob := decode(log);
    if newJob.None? {
      return Err(DecodeFailed(source));
    }
    var jobId := newJob.value;
    var result := DecimalString(fibonacci(FIBONACCI_INDEX));
    var submitted := SubmitResult(s, result, jobId, rpc.submit);
    if submitted.Err? {
      return Err(submitted.error);
    }
    var read := ReadResult(s.filterAddresses, rpc.readOk);
    if read.Err? {
      return Err(read.error);
    }
    r := Ok(JobReport(source, jobId, submitted.value));
  }
}
