# chain_fusion event pipeline, modelled in Dafny

The `chain_fusion` canister turns EVM events into transactions exactly once.
A poller scrapes `NewJob` logs from the coprocessor contract and records each
one as *waiting* in the canister's event store. A processing run then takes
a copy of the waiting logs and runs one job per log, in ascending
`LogSource` order. A job:

1. moves its log from *waiting* to *processed*;
2. decodes the event;
3. computes the 20th Fibonacci number;
4. submits the result as a signed transaction;
5. reads the result back.

Submissions number their transactions from a nonce that the canister keeps
itself. The stored nonce moves only when the sent transaction is found by its
hash afterwards (it may still be pending).

The model has six modules:

- `CanisterState` (`state.dfy`): the event store and the state object.
  `StateValue` is the state as a value. The class `State` is the mutable
  object, and its methods are proved to change it exactly as the step
  functions `AfterRecordLog` and `AfterRecordProcessed` say.
- `Logs` (`logs.dfy`): the scrape callback, the scraper itself and the
  processing run.
- `Jobs` (`job.dfy`): one job.
- `ResultSubmission` (`submit_result.dfy`): nonce choice and transaction
  submission.
- `Lifecycle` (`lifecycle.dfy`): building the state from the install
  argument.
- `EthCall` (`eth_call.dfy`): the `to_hex` / `from_hex` helpers.

`wrappers.dfy` and `primitives.dfy` hold `Option`, `Result` and the fixed-width
integer and byte-string types.

A Rust panic is the outcome `Err(p)`, where `p` is a `Panic` naming the
reason. The state after a panic is whatever the operation had written before
it. For example, a job whose log fails to decode has already moved the log
to *processed*.

The outside world enters as parameters:

- the results of RPC calls: transaction count, send, transaction-by-hash
  probe, read-back, `watch_logs` and poller start;
- the event decoder (`log_decode`);
- the Fibonacci function;
- the address parser (`Address::from_str`).

Two behaviours of the code shape the model:

- The scrape callback records every incoming log through
  `record_log_to_process`, with no membership pre-check. A log delivered a
  second time therefore panics (`DuplicateEvent` or `EventAlreadyProcessed`)
  instead of being skipped. See `Logs.OverlappingTicks`.
- A log that does not decode as `NewJob` panics at the `unwrap` after it was
  marked processed. That panic ends the processing run, so the later
  waiting logs are not submitted in that run; they stay waiting. See
  `Logs.DecodeFailureEndsDrain`.

## Model

| member | source | states |
|---|---|---|
| CanisterState.Source | canisters/chain_fusion/src/state.rs:82-93 | a log has a source exactly when both its transaction hash and log index are present, and the source is that pair; otherwise the log is pending and `source()` panics |
| CanisterState.SourceLess | canisters/chain_fusion/src/state.rs:97-101 | hash bytes compared lexicographically first, then log index, as the derived `Ord` on field order gives; a source is never less than itself |
| CanisterState.BytesLessIrreflexive | canisters/chain_fusion/src/state.rs:97-101 | no hash is lexicographically smaller than itself |
| CanisterState.BytesLessTransitive | canisters/chain_fusion/src/state.rs:97-101 | the lexicographic byte order on hashes is transitive |
| CanisterState.BytesLessTotal | canisters/chain_fusion/src/state.rs:97-101 | of two different hashes of the same length, one is lexicographically smaller |
| CanisterState.SourceLessIsStrictTotalOrder | canisters/chain_fusion/src/state.rs:97-101 | the derived `Ord` of `LogSource` (hash bytes first, then log index) is irreflexive, asymmetric, transitive and total, so the store's key order is well defined |
| CanisterState.AfterRecordLog | canisters/chain_fusion/src/state.rs:37-46 | recording succeeds exactly when the log has a source that is neither waiting nor processed; then that source maps to the log and every other waiting entry is kept; a pending log, a waiting source and a processed source each panic with their own reason (`LogIsPending`, `DuplicateEvent`, `EventAlreadyProcessed`) and change nothing; only the waiting map is written; the store invariant (maps disjoint, logs keyed by their source) is preserved |
| CanisterState.AfterRecordProcessed | canisters/chain_fusion/src/state.rs:48-59 | an unknown source panics and changes nothing; otherwise the source leaves the waiting map and its log is stored under it in the processed map, all other entries unchanged; the outcome is a panic exactly when the source was already processed; the store invariant is preserved |
| CanisterState.JobRunTwiceUnreachable | canisters/chain_fusion/src/state.rs:54-58 | under the store invariant, moving a waiting source never trips the "run job twice" assertion |
| CanisterState.ProcessedIsFinal | canisters/chain_fusion/src/state.rs:38-43 | under the store invariant, a processed source can never be recorded as waiting again, and stays processed after a later move |
| CanisterState.State.constructor | canisters/chain_fusion/src/state.rs:117-120 | the state object holds exactly the given value |
| CanisterState.State.RecordLogToProcess | canisters/chain_fusion/src/state.rs:37-46 | changes only the waiting map, exactly as `AfterRecordLog` says, with the same outcome |
| CanisterState.State.RecordProcessedLog | canisters/chain_fusion/src/state.rs:48-59 | changes only the two maps, exactly as `AfterRecordProcessed` says, with the same outcome |
| CanisterState.State.HasLogsToProcess | canisters/chain_fusion/src/state.rs:61-63 | true exactly when some source is waiting |
| CanisterState.State.AcquireGuard | canisters/chain_fusion/src/logs.rs:14-17 | acquiring succeeds exactly when no instance of the task is running, and the task is marked running either way |
| ResultSubmission.NextNonce | canisters/chain_fusion/src/job/submit_result.rs:25-38 | a stored nonce n gives n+1 (0 after the `u64` maximum); with none stored, the remote transaction count, or 0 when that query failed |
| ResultSubmission.AfterSubmit | canisters/chain_fusion/src/job/submit_result.rs:9-73 | a missing signer or address panics and changes nothing; otherwise the transaction goes to the coprocessor from the canister's address on the configured chain, carries the result and job id, and uses `NextNonce`; a failed send is reported as rejected with its message, a sent transaction as confirmed with its hash when the probe found it and as unconfirmed with its hash when it did not; a failed probe panics; only `nonce` is ever written, and only when the send succeeded and the probe found the transaction, in which case it becomes the nonce used |
| ResultSubmission.SubmitAdvancesNonceByOne | canisters/chain_fusion/src/job/submit_result.rs:25-63 | below the `u64` limit, a submission leaves a stored nonce as it is or advances it by exactly one |
| ResultSubmission.ColdStartThenNext | canisters/chain_fusion/src/job/submit_result.rs:25-63 | with no stored nonce, a confirmed submission uses and stores the remote count c, and the next submission uses c+1 |
| ResultSubmission.SubmitResult | canisters/chain_fusion/src/job/submit_result.rs:9-73 | changes only `nonce`, exactly as `AfterSubmit` says, with the same outcome |
| Jobs.DigitChar | canisters/chain_fusion/src/job.rs:27 | a decimal digit is rendered as a character '0'..'9' |
| Jobs.DecimalString | canisters/chain_fusion/src/job.rs:23-27 | `to_string` of a number is a non-empty run of decimal digits with no leading zero, "0" for zero |
| Jobs.DecimalRoundTrip | canisters/chain_fusion/src/job.rs:23-27 | the decimal text submitted denotes exactly the number computed |
| Jobs.SubmittedText | tests/src/tests.rs:26-29 | when the 20th Fibonacci number is 6765, the text every job submits is "6765" |
| Jobs.ReadResult | canisters/chain_fusion/src/job/read_result.rs:9-23 | the read-back succeeds exactly when there is a first filter address and the call succeeds; an empty address list panics at the index |
| Jobs.AfterJob | canisters/chain_fusion/src/job.rs:15-30 | marking comes first: a source that is not waiting panics before anything else and changes nothing; otherwise the source is moved to processed with its log whatever happens afterwards; only the two maps and the nonce are written; a successful report names the job's source; the store invariant is preserved |
| Jobs.JobNeverRunsTwice | canisters/chain_fusion/src/job.rs:16 | under the store invariant, a job for a waiting source never panics with "run job twice" |
| Jobs.UndecodableLogIsDropped | canisters/chain_fusion/src/job.rs:16-19 | a log that is not a `NewJob` event panics after its source became processed, and nothing is submitted: the nonce is unchanged |
| Jobs.JobSubmitsFibonacci | canisters/chain_fusion/src/job.rs:19-27 | a successful job decoded its event, and its transaction carries the event's job id and the decimal text of the 20th Fibonacci number |
| Jobs.JobNonce | canisters/chain_fusion/src/job.rs:27-29 | a job changes the nonce only when its log decoded and its transaction was sent and found, and then to the next nonce; the read-back runs after the submission, so a failing read does not undo the nonce update |
| Jobs.ConfirmedJob | canisters/chain_fusion/src/job.rs:15-29 | a job for a waiting source, with a signer, an address and a filter address, whose log decodes and whose transaction is sent, found and read back, succeeds with a confirmed transaction that takes the next nonce, and that nonce is stored |
| Jobs.Job | canisters/chain_fusion/src/job.rs:15-30 | changes only the two maps and the nonce, exactly as `AfterJob` says, with the same outcome |
| Logs.AfterBatch | canisters/chain_fusion/src/logs.rs:39-41 | recording a batch writes only the waiting map and keeps every entry already waiting |
| Logs.InBatchSources | canisters/chain_fusion/src/logs.rs:39-41 | a source belongs to a batch exactly when some log of the batch has it |
| Logs.BatchKeepsInvariant | canisters/chain_fusion/src/logs.rs:39-41 | recording a batch, whether it panics or not, keeps the two maps disjoint and every log under its own source |
| Logs.BatchContents | canisters/chain_fusion/src/logs.rs:39-41 | a batch recorded without panic adds exactly its own sources to the waiting map, each with its log |
| Logs.BatchAcceptedIffFresh | canisters/chain_fusion/src/logs.rs:39-41 | a batch is recorded without panic exactly when every log has a source, no two logs share one, and none is already waiting or processed |
| Logs.BatchStopsAtPanic | canisters/chain_fusion/src/logs.rs:39-41 | after the first panicking log, the rest of the batch changes nothing |
| Logs.OverlappingTicks | canisters/chain_fusion/src/logs.rs:38-48 | when a second batch redelivers a log of an accepted first batch, the second batch panics, and the log's source is in exactly one of the two maps |
| Logs.Callback | canisters/chain_fusion/src/logs.rs:38-48 | the callback records the batch in order, as `AfterBatch` says, stops at the first panic with its reason, and asks for a processing run exactly when something is waiting afterwards |
| Logs.ScrapeEthLogs | canisters/chain_fusion/src/logs.rs:26-65 | marks the task running; when it already was, returns without installing a poller; otherwise a failed `watch_logs` or a failed start panics, and a started poller watches the configured addresses and events from the latest block every 60 seconds, with a 100 000-byte response cap |
| Logs.SmallestSource | canisters/chain_fusion/src/logs.rs:21 | the next key of an in-order `BTreeMap` walk: a key of the set smaller than every other key |
| Logs.SortedSources | canisters/chain_fusion/src/logs.rs:21 | the keys of the copied map, each exactly once, in strictly ascending `LogSource` order |
| Logs.AfterJobs | canisters/chain_fusion/src/logs.rs:21-23 | running jobs one after the other writes only the two maps and the nonce, and a run without panic yields one report per job |
| Logs.DrainReportsFollowOrder | canisters/chain_fusion/src/logs.rs:21-23 | a run without panic reports its jobs in the order they ran, one per source |
| Logs.DrainWaiting | canisters/chain_fusion/src/logs.rs:21-23 | a run never adds a waiting source or changes a waiting log, and a source no job names stays waiting |
| Logs.DrainProcessedOnlyNamed | canisters/chain_fusion/src/logs.rs:21-23 | a run makes only the sources its jobs name processed |
| Logs.DrainKeepsProcessed | canisters/chain_fusion/src/logs.rs:21-23 | under the store invariant, a run leaves every processed entry as it was |
| Logs.DrainMovesNamed | canisters/chain_fusion/src/logs.rs:21-23 | a run without panic has moved every source it named from waiting to processed, together with its log |
| Logs.DrainKeepsInvariant | canisters/chain_fusion/src/logs.rs:21-23 | a run, whether it panics or not, keeps the store invariant |
| Logs.DrainNeverRunsJobTwice | canisters/chain_fusion/src/logs.rs:21-23 | under the store invariant, no job of a run panics with "run job twice" |
| Logs.DrainEmptiesSnapshot | canisters/chain_fusion/src/logs.rs:19-23 | a run without panic over every waiting source leaves nothing waiting, and the processed map becomes the old one plus the whole copied map |
| Logs.DrainStopsAtPanic | canisters/chain_fusion/src/logs.rs:21-23 | once a job panics, the jobs after it change nothing and the run ends with that panic |
| Logs.UnvisitedStillWaiting | canisters/chain_fusion/src/logs.rs:21-23 | over distinct waiting sources, the sources a run has not reached are still waiting and not processed |
| Logs.DecodeFailureEndsDrain | canisters/chain_fusion/src/logs.rs:21-23 | a log that fails to decode ends the run with that panic; its source is processed, the nonce is as it was before that job, and every later source is still waiting |
| Logs.ConfirmedDrainNonces | canisters/chain_fusion/src/job/submit_result.rs:25-63 | from a stored nonce n, a run whose transactions are all confirmed uses the nonces n+1, n+2, ... in order, each confirmed, and stores n plus the number of jobs |
| Logs.DrainNonceNeverDecreases | canisters/chain_fusion/src/job/submit_result.rs:25-63 | from a stored nonce n, a run never moves the nonce backwards and advances it by at most one per job |
| Logs.RunJobs | canisters/chain_fusion/src/logs.rs:21-23 | runs jobs over a prefix of the sorted sources, as `AfterJobs` says; it stops at the first panic, which is the last source it started (every earlier job succeeded), and visits all sources otherwise |
| Logs.ProcessLogs | canisters/chain_fusion/src/logs.rs:13-24 | marks the task running; when it already was, returns and changes nothing else; otherwise copies the waiting map once and runs jobs over its sources in ascending order, as `AfterJobs` says; a source left unvisited is greater than every visited one, and only a panic leaves sources unvisited; on a panic the last source started is the one whose job panicked |
| Lifecycle.ParseAddresses | canisters/chain_fusion/src/lifecycle.rs:31-38 | all addresses parse exactly when the result is a success, which holds them one-to-one and in order; otherwise the error is that of the first address that fails, prefixed "ERROR: " |
| Lifecycle.TryFrom | canisters/chain_fusion/src/lifecycle.rs:21-60 | construction succeeds exactly when every filter address and the coprocessor address parse; a bad filter address is reported before the coprocessor address; on success the addresses are the parsed ones, RPC service, chain id, events and key id are copied, both maps and the task set are empty, signer, address and nonce are absent, and the store invariant holds |
| EthCall.HexDigit | packages/ic-evm-utils/src/eth_call.rs:134 | a nibble is written as the lowercase digit whose value it is |
| EthCall.HexValue | packages/ic-evm-utils/src/eth_call.rs:147 | a hex digit of either case denotes a nibble |
| EthCall.Encode | packages/ic-evm-utils/src/eth_call.rs:134 | `hex::encode` writes two lowercase digits per byte, high nibble first |
| EthCall.Decode | packages/ic-evm-utils/src/eth_call.rs:147 | `hex::decode` refuses an odd length before anything else, succeeds exactly on an even run of hex digits of either case with one byte per digit pair, and otherwise names the first non-digit and its position |
| EthCall.DecodeFrom | packages/ic-evm-utils/src/eth_call.rs:147 | decoding the digit pairs from a position on succeeds exactly when all bytes from there are hex digits, and otherwise names the first offending byte |
| EthCall.ToHex | packages/ic-evm-utils/src/eth_call.rs:133-135 | `to_hex` is "0x" followed by two lowercase hex digits per byte |
| EthCall.FromHex | packages/ic-evm-utils/src/eth_call.rs:146-148 | `from_hex` panics when the text is shorter than two bytes or byte 2 is inside a character; otherwise it drops the first two bytes unchecked and decodes the rest, with the errors of `hex::decode` |
| EthCall.RoundTrip | packages/ic-evm-utils/src/eth_call.rs:133-148 | decoding what `to_hex` wrote gives back the original bytes |
| EthCall.ReencodeLowercase | packages/ic-evm-utils/src/eth_call.rs:133-148 | for a text of lowercase digits after its first two bytes, `to_hex` of what `from_hex` read restores "0x" and those digits |
| EthCall.PairRestored | packages/ic-evm-utils/src/eth_call.rs:133-148 | a byte read from two lowercase digits is written back as the same two digits |

## Left out

- Timers, `ic_cdk::spawn`, the poller's schedule and async interleaving are not modelled. Each task runs as one sequential step on the state object. The timer that `Callback` sets is its `true` result.
- The `TimerGuard` type (`guard.rs`) is not part of this model. It appears only as try-acquire on the running-task set (`State.AcquireGuard`).
- CanisterState.State.AcquireGuard: does not release the guard when a task ends, because the release code is not part of this model.
- Rolling back a panicking message's state writes (an Internet Computer trap) is not modelled. After `Err(p)` the state is the in-memory state at the panic.
- Because of that rollback, the canister itself keeps less than the model's post-panic state shows. `record_processed_log` (job.rs:16) and the decode `unwrap` (job.rs:19) run in one message with no await between them, so a decode panic undoes the mark: the log stays waiting and panics again on every later run. Likewise a scrape callback batch that panics (logs.rs:39-41) is undone as a whole. `Jobs.UndecodableLogIsDropped`, `Logs.DecodeFailureEndsDrain` and `Logs.BatchStopsAtPanic` describe the in-memory state at the panic, not what the canister retains.
- The thread-local `STATE` cell and the "BUG: state is not initialized" panic of `read_state` and `mutate_state` are not modelled; `initialize_state` is the `State` constructor. Methods act on a `State` object.
- The alloy provider, ECDSA signing, gas estimation, ABI encoding and `log_decode` are outside the model. Their outcomes are inputs, and the decoder is a function parameter.
- Printed log messages are not modelled.
- `fibonacci` (`calculate_result.rs`) is not part of this model. It is a function parameter; `Jobs.SubmittedText` uses the value 6765 that the repository's test expects.
- `Address::from_str` is a parameter, a function that yields an address or its error text.
- `lib.rs` wiring is not modelled: timer setup, signer derivation, Candid export. Signer and address are ordinary optional fields; when one is missing, submission panics.
- The key-id and filter getters (`State.KeyId`, `State.GetFilterAddresses`, `State.GetFilterEvents`) are plain field reads without contracts.
- `erc20_balance_of` in the utilities package is not modelled: it is an RPC call with ABI encoding.
- The EVM RPC Candid types (`evm-rpc-canister-types`) are not modelled.
- The test harness and generated bindings are not modelled.
- Jobs.ReadResult: models only whether the read-back panics. The value read is only printed.
- EthCall.Decode and EthCall.Encode: `ethers_core::utils::hex` is taken to be the `hex` crate, whose source is not part of this model. The `const-hex` crate also skips a "0x" at the start of its input after the odd-length check (so `from_hex("0x0x12")` would give the byte 0x12), which the model does not.
- ResultSubmission.SubmitAdvancesNonceByOne: stated only below the `u64` limit; `NextNonce` itself models the wrap-around of `nonce + 1` in a release build.
- Logs.ConfirmedDrainNonces: stated only when the nonces stay below 2^64, for the same reason.
- Logs.DrainNonceNeverDecreases: stated only when the nonces stay below 2^64, for the same reason.
- Logs.ProcessLogs: does not model logs recorded while a run is in progress. The run works on the copy taken at its start, and nothing can interleave with a sequential step.
