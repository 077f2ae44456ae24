/**
 * Writing a job's result back to the coprocessor contract as a signed
 * transaction.  The nonce is the stored one plus one, or, when none is
 * stored, the account's transaction count on the chain (0 if that query
 * fails).  The stored nonce changes only when the transaction was sent and
 * the chain then returned it by its hash.
 *
 * The outcomes of the three RPC calls (transaction count, send,
 * transaction-by-hash) are inputs.
 */
module ResultSubmission {
  import opened Wrappers
  import opened Primitives
  import opened CanisterState

  datatype SendOutcome = Sent(txHash: Hash32) | SendFailed(message: string)

  /** `get_transaction_by_hash(..).await`: the call failed, or it answered `None` or `Some`. */
  datatype ProbeOutcome = ProbeError | TransactionMissing | TransactionFound

  datatype SubmitRpc = SubmitRpc(transactionCount: Option<u64>, send: SendOutcome, probe: ProbeOutcome)

  /** The `callback(result, job_id)` call to the coprocessor contract. */
  datatype Transaction = Transaction(
    to: Address,
    from: Address,
    chainId: u64,
    nonce: u64,
    result: string,
    jobId: u256)

  datatype SubmitStatus =
    | SendRejected(message: string)
    | Unconfirmed(txHash: Hash32)
    | Confirmed(txHash: Hash32)

  datatype SubmitReport = SubmitReport(tx: Transaction, status: SubmitStatus)

  /**
   * The nonce for the next transaction.  `nonce + 1` on a `u64` wraps
   * around in a release build.
   */
  function NextNonce(stored: Option<u64>, transactionCount: Option<u64>): (n: u64)
    ensures stored.Some? && stored.value < U64_MODULUS - 1 ==> n == stored.value + 1
    ensures stored == Some(U64_MODULUS - 1) ==> n == 0
    ensures stored.None? && transactionCount.Some? ==> n == transactionCount.value
    ensures stored.None? && transactionCount.None? ==> n == 0
  {
    match stored
    case Some(last) => (last + 1) % U64_MODULUS
    case None => transactionCount.UnwrapOr(0)
  }

  /** `submit_result`. */
  function AfterSubmit(v: StateValue, result: string, jobId: u256, rpc: SubmitRpc)
    : (r: (StateValue, Result<SubmitReport, Panic>))
    ensures r.0 == v.(nonce := r.0.nonce)
    ensures v.signer.None? ==> r == (v, Err(SignerMissing))
    ensures v.signer.Some? && v.canisterEvmAddress.None? ==> r == (v, Err(EvmAddressMissing))
    ensures r.1.Err? <==> v.signer.None? || v.canisterEvmAddress.None? || (rpc.send.Sent? && rpc.probe == ProbeError)
    ensures r.1.Ok? ==>
              && r.1.value.tx.nonce == NextNonce(v.nonce, rpc.transactionCount)
              && r.1.value.tx.from == v.canisterEvmAddress.value
              && r.1.value.tx.to == v.coprocessorEvmAddress
              && r.1.value.tx.chainId == v.chainId
              && r.1.value.tx.result == result
              && r.1.value.tx.jobId == jobId
    ensures r.1.Ok? ==>
              r.1.value.status == match rpc.send
                                  case SendFailed(message) => SendRejected(message)
                                  case Sent(hash) =>
                                    if rpc.probe == TransactionFound then Confirmed(hash) else Unconfirmed(hash)
    ensures r.1.Ok? && r.1.value.status.Confirmed? <==>
              v.signer.Some? && v.canisterEvmAddress.Some? && rpc.send.Sent? && rpc.probe == TransactionFound
    ensures r.0.nonce == if r.1.Ok? && r.1.value.status.Confirmed? then Some(r.1.value.tx.nonce) else v.nonce
  {
    if v.signer.None? then (v, Err(SignerMissing))
    else if v.canisterEvmAddress.None? then (v, Err(EvmAddressMissing))
    else
      var nonce := NextNonce(v.nonce, rpc.transactionCount);
      var tx := Transaction(v.coprocessorEvmAddress, v.canisterEvmAddress.value, v.chainId, nonce, result, jobId);
      match rpc.send
      case SendFailed(message) => (v, Ok(SubmitReport(tx, SendRejected(message))))
      case Sent(hash) =>
        match rpc.probe
        case ProbeError => (v, Err(ProbeFailed))
        case TransactionMissing => (v, Ok(SubmitReport(tx, Unconfirmed(hash))))
        case TransactionFound => (v.(nonce := Some(nonce)), Ok(SubmitReport(tx, Confirmed(hash))))
  }

  /**
   * A submission never moves a stored nonce backwards: it stays, or it
   * advances by exactly one (short of the `u64` limit).
   */
  lemma SubmitAdvancesNonceByOne(v: StateValue, result: string, jobId: u256, rpc: SubmitRpc, n: u64)
    requires v.nonce == Some(n) && n < U64_MODULUS - 1
    ensures AfterSubmit(v, result, jobId, rpc).0.nonce in {Some(n), Some(n + 1)}
  {
  }

  /**
   * Cold start: with no stored nonce and a remote count `c`, a confirmed
   * submission uses `c` and stores it, and the next submission uses `c + 1`.
   */
  lemma ColdStartThenNext(v: StateValue, c: u64, first: SubmitRpc, second: SubmitRpc, result: string, jobId: u256)
    requires v.signer.Some? && v.canisterEvmAddress.Some? && v.nonce.None?
    requires first.transactionCount == Some(c) && first.send.Sent? && first.probe == TransactionFound
    requires c < U64_MODULUS - 1 && second.probe != ProbeError
    ensures AfterSubmit(v, result, jobId, first).1.value.tx.nonce == c
    ensures AfterSubmit(v, result, jobId, first).0.nonce == Some(c)
    ensures AfterSubmit(AfterSubmit(v, result, jobId, first).0, result, jobId, second).1.value.tx.nonce == c + 1
  {
  }

  method SubmitResult(s: State, result: string, jobId: u256, rpc: SubmitRpc) returns (r: Result<SubmitReport, Panic>)
    modifies s`nonce
    ensures (s.Value(), r) == AfterSubmit(old(s.Value()), result, jobId, rpc)
  {
    if s.signer.None? {
      return Err(SignerMissing);
    }
    if s.canisterEvmAddress.None? {
      return Err(EvmAddressMissing);
    }
    var evmAddress := s.canisterEvmAddress.value;
    var nonce: u64;
    if s.nonce.Some? {
      nonce := (s.nonce.value + 1) % U64_MODULUS;
    } else {
      nonce := rpc.transactionCount.UnwrapOr(0);
    }
    var tx := Transaction(s.coprocessorEvmAddress, evmAddress, s.chainId, nonce, result, jobId);
    match rpc.send {
      case SendFailed(message) =>
        r := Ok(SubmitReport(tx, SendRejected(message)));
      case Sent(hash) =>
        match rpc.probe {
          case ProbeError =>
            r := Err(ProbeFailed);
          case TransactionMissing =>
            r := Ok(SubmitReport(tx, Unconfirmed(hash)));
          case TransactionFound =>
            s.nonce := Some(nonce);
            r := Ok(SubmitReport(tx, Confirmed(hash)));
        }
    }
  }
}
