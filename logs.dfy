/**
 * The two periodic tasks of the canister.
 *
 * Scraping installs a log poller; each batch the poller delivers is handed
 * to a callback that records every log as waiting, in batch order, and
 * schedules a processing run when anything is waiting afterwards.
 *
 * Processing takes a copy of the waiting map and runs one job per entry in
 * ascending source order (a `BTreeMap` iterates in key order).  A job that
 * panics ends the run.
 *
 * Both tasks first acquire their guard and return at once when an instance
 * is already running.  Timers, the poller's schedule and the RPC transport
 * are outside the model; their outcomes are inputs.
 */
module Logs {
  import opened Wrappers
  import opened Primitives
  import opened CanisterState
  import opened ResultSubmission
  import opened Jobs

  /** `SCRAPING_LOGS_INTERVAL`: the poller's period, in seconds. */
  const SCRAPING_LOGS_INTERVAL_SECONDS: nat := 60

  /** The response-size cap set on the scraping provider, in bytes. */
  const MAX_RESPONSE_SIZE: nat := 100_000

  datatype BlockTag = Latest

  datatype Filter = Filter(addresses: seq<Address>, events: seq<string>, fromBlock: BlockTag)

  datatype Poller = Poller(filter: Filter, pollIntervalSeconds: nat, maxResponseSize: nat)

  datatype ScrapeOutcome = ScrapeSkipped | PollerStarted(poller: Poller)

  /** Outcomes of `watch_logs(..).await` and of starting the poller. */
  datatype WatchRpc = WatchRpc(watchOk: bool, startOk: bool)

  datatype DrainOutcome = Skipped | Drained(reports: seq<JobReport>)

  // ---------------------------------------------------------------------
  // The scrape callback.
  // ---------------------------------------------------------------------

  /** Records the logs of a batch one after the other; the first panic stops the batch. */
  function AfterBatch(v: StateValue, logs: seq<Log>): (r: (StateValue, Result<(), Panic>))
    decreases |logs|
    ensures r.0 == v.(logsToProcess := r.0.logsToProcess)
    ensures forall k :: k in v.logsToProcess ==> k in r.0.logsToProcess && r.0.logsToProcess[k] == v.logsToProcess[k]
  {
    if logs == [] then (v, Ok(()))
    else
      var (before, recorded) := AfterBatch(v, logs[..|logs| - 1]);
      if recorded.Err? then (before, recorded) else AfterRecordLog(before, logs[|logs| - 1])
  }

  /** Every log of the batch has a source, no two share one, and none is known yet. */
  ghost predicate FreshBatch(v: StateValue, logs: seq<Log>) {
    && (forall i :: 0 <= i < |logs| ==>
          Source(logs[i]).Ok? && Source(logs[i]).value !in v.logsToProcess
                              && Source(logs[i]).value !in v.processedLogs)
    && (forall i, j :: 0 <= i < j < |logs| ==> Source(logs[i]) != Source(logs[j]))
  }

  /** The sources of a batch's logs (of those that have one). */
  ghost function BatchSources(logs: seq<Log>): set<LogSource>
    decreases |logs|
  {
    if logs == [] then {}
    else
      BatchSources(logs[..|logs| - 1])
      + match Source(logs[|logs| - 1]) case Ok(k) => {k} case Err(_) => {}
  }

  lemma {:induction false} InBatchSources(logs: seq<Log>, k: LogSource)
    ensures k in BatchSources(logs) <==> exists i :: 0 <= i < |logs| && Source(logs[i]) == Ok(k)
    decreases |logs|
  {
    if logs != [] {
      var n := |logs| - 1;
      InBatchSources(logs[..n], k);
      assert forall i :: 0 <= i < n ==> logs[..n][i] == logs[i];
    }
  }

  /** One more log at the end of a batch that has not panicked. */
  lemma BatchStep(v: StateValue, logs: seq<Log>)
    requires logs != [] && AfterBatch(v, logs[..|logs| - 1]).1.Ok?
    ensures AfterBatch(v, logs) == AfterRecordLog(AfterBatch(v, logs[..|logs| - 1]).0, logs[|logs| - 1])
  {
  }

  /** A batch that has not panicked had not panicked one log earlier either. */
  lemma BatchPrefixOk(v: StateValue, logs: seq<Log>)
    requires logs != [] && AfterBatch(v, logs).1.Ok?
    ensures AfterBatch(v, logs[..|logs| - 1]).1.Ok?
  {
  }

  /** A batch, panicking or not, keeps the store invariant. */
  lemma {:induction false} BatchKeepsInvariant(v: StateValue, logs: seq<Log>)
    requires StoreInvariant(v)
    ensures StoreInvariant(AfterBatch(v, logs).0)
    decreases |logs|
  {
    if logs != [] {
      BatchKeepsInvariant(v, logs[..|logs| - 1]);
    }
  }

  /** Every log of `logs` has a source and is stored under it in `waiting`. */
  ghost predicate StoredUnderSource(waiting: map<LogSource, Log>, logs: seq<Log>) {
    forall i :: 0 <= i < |logs| ==>
      && Source(logs[i]).Ok?
      && Source(logs[i]).value in waiting
      && waiting[Source(logs[i]).value] == logs[i]
  }

  /** Storing one more log under a new source keeps the earlier logs where they were. */
  lemma StoredUnderSourceStep(before: map<LogSource, Log>, logs: seq<Log>, after: map<LogSource, Log>)
    requires logs != [] && StoredUnderSource(before, logs[..|logs| - 1])
    requires var log := logs[|logs| - 1];
             && Source(log).Ok? && Source(log).value !in before
             && after.Keys == before.Keys + {Source(log).value} && after[Source(log).value] == log
    requires forall k :: k in before ==> after[k] == before[k]
    ensures StoredUnderSource(after, logs)
  {
    var n := |logs| - 1;
    forall i | 0 <= i < |logs|
      ensures && Source(logs[i]).Ok?
              && Source(logs[i]).value in after
              && after[Source(logs[i]).value] == logs[i]
    {
      if i < n {
        assert logs[..n][i] == logs[i];
      }
    }
  }

  /**
   * A batch recorded without panicking adds exactly its own sources to the
   * waiting map, each with its log, and keeps what was waiting.
   */
  lemma {:induction false} BatchContents(v: StateValue, logs: seq<Log>)
    requires AfterBatch(v, logs).1.Ok?
    ensures AfterBatch(v, logs).0.logsToProcess.Keys == v.logsToProcess.Keys + BatchSources(logs)
    ensures StoredUnderSource(AfterBatch(v, logs).0.logsToProcess, logs)
    decreases |logs|
  {
    if logs != [] {
      var n := |logs| - 1;
      BatchPrefixOk(v, logs);
      BatchContents(v, logs[..n]);
      BatchStep(v, logs);
      var before := AfterBatch(v, logs[..n]).0;
      StoredUnderSourceStep(before.logsToProcess, logs, AfterRecordLog(before, logs[n]).0.logsToProcess);
    }
  }

  /** A batch stays fresh with one more log exactly when that log's source is new to the store and to the batch. */
  lemma FreshBatchStep(v: StateValue, logs: seq<Log>)
    requires logs != []
    ensures var prefix, k := logs[..|logs| - 1], Source(logs[|logs| - 1]);
            FreshBatch(v, logs) <==>
              && FreshBatch(v, prefix)
              && k.Ok? && k.value !in v.logsToProcess && k.value !in v.processedLogs
              && k.value !in BatchSources(prefix)
  {
    var n := |logs| - 1;
    var prefix, k := logs[..n], Source(logs[n]);
    assert forall i :: 0 <= i < n ==> prefix[i] == logs[i];
    if k.Ok? {
      InBatchSources(prefix, k.value);
      if k.value in BatchSources(prefix) {
        var i :| 0 <= i < n && Source(prefix[i]) == k;
        assert Source(logs[i]) == Source(logs[n]);
      }
    }
  }

  /** A batch is recorded without panicking exactly when it is fresh. */
  lemma {:induction false} BatchAcceptedIffFresh(v: StateValue, logs: seq<Log>)
    ensures AfterBatch(v, logs).1.Ok? <==> FreshBatch(v, logs)
    decreases |logs|
  {
    if logs != [] {
      var prefix := logs[..|logs| - 1];
      BatchAcceptedIffFresh(v, prefix);
      FreshBatchStep(v, logs);
      if AfterBatch(v, prefix).1.Ok? {
        BatchContents(v, prefix);
      }
    }
  }

  /** Once a batch panics, the logs after the panicking one change nothing. */
  lemma {:induction false} BatchStopsAtPanic(v: StateValue, logs: seq<Log>, n: nat)
    requires n <= |logs| && AfterBatch(v, logs[..n]).1.Err?
    ensures AfterBatch(v, logs) == AfterBatch(v, logs[..n])
    decreases |logs| - n
  {
    if n < |logs| {
      assert logs[..n + 1][..n] == logs[..n];
      BatchStopsAtPanic(v, logs, n + 1);
    } else {
      assert logs[..n] == logs;
    }
  }

  /**
   * Two overlapping scrape ticks deliver the same log: the second batch
   * panics, and the log's source is in exactly one of the two maps.
   */
  lemma OverlappingTicks(v: StateValue, first: seq<Log>, second: seq<Log>, i: nat, j: nat)
    requires StoreInvariant(v)
    requires i < |first| && j < |second| && Source(first[i]).Ok? && Source(second[j]) == Source(first[i])
    requires AfterBatch(v, first).1.Ok?
    ensures AfterBatch(AfterBatch(v, first).0, second).1.Err?
    ensures var after := AfterBatch(AfterBatch(v, first).0, second).0;
            var k := Source(first[i]).value;
            (k in after.logsToProcess) != (k in after.processedLogs)
  {
    var mid := AfterBatch(v, first).0;
    BatchContents(v, first);
    BatchKeepsInvariant(v, first);
    BatchKeepsInvariant(mid, second);
    BatchAcceptedIffFresh(mid, second);
    var k := Source(first[i]).value;
    InBatchSources(first, k);
    assert k in mid.logsToProcess;
    assert !FreshBatch(mid, second);
  }

  /** The poller's callback, run on each batch of incoming logs. */
  method Callback(s: State, incoming: seq<Log>) returns (r: Result<bool, Panic>)
    modifies s`logsToProcess
    ensures s.Value() == AfterBatch(old(s.Value()), incoming).0
    ensures r.Err? <==> AfterBatch(old(s.Value()), incoming).1.Err?
    ensures r.Err? ==> r.error == AfterBatch(old(s.Value()), incoming).1.error
    ensures r.Ok? ==> (r.value <==> s.logsToProcess != map[])
  {
    ghost var start := s.Value();
    var i := 0;
    while i < |incoming|
      invariant 0 <= i <= |incoming|
      invariant AfterBatch(start, incoming[..i]) == (s.Value(), Ok(()))
    {
      var recorded := s.RecordLogToProcess(incoming[i]);
      assert incoming[..i + 1][..i] == incoming[..i];
      if recorded.Err? {
        BatchStopsAtPanic(start, incoming, i + 1);
        return Err(recorded.error);
      }
      i := i + 1;
    }
    assert incoming[..i] == incoming;
    r := Ok(s.HasLogsToProcess());
  }

  /** `scrape_eth_logs`: acquires its guard, then builds the filter and starts the poller. */
  method ScrapeEthLogs(s: State, rpc: WatchRpc) returns (r: Result<ScrapeOutcome, Panic>)
    modifies s`activeTasks
    ensures s.activeTasks == old(s.activeTasks) + {ScrapeLogs}
    ensures ScrapeLogs in old(s.activeTasks) ==> r == Ok(ScrapeSkipped)
    ensures ScrapeLogs !in old(s.activeTasks) ==>
              r == if !rpc.watchOk then Err(WatchLogsFailed)
                   else if !rpc.startOk then Err(PollerStartFailed)
                   else Ok(PollerStarted(Poller(Filter(s.filterAddresses, s.filterEvents, Latest),
                                                SCRAPING_LOGS_INTERVAL_SECONDS, MAX_RESPONSE_SIZE)))
  {
    var acquired := s.AcquireGuard(ScrapeLogs);
    if !acquired {
      return Ok(ScrapeSkipped);
    }
    var filter := Filter(s.GetFilterAddresses(), s.GetFilterEvents(), Latest);
    if !rpc.watchOk {
      return Err(WatchLogsFailed);
    }
    if !rpc.startOk {
      return Err(PollerStartFailed);
    }
    r := Ok(PollerStarted(Poller(filter, SCRAPING_LOGS_INTERVAL_SECONDS, MAX_RESPONSE_SIZE)));
  }

  // ---------------------------------------------------------------------
  // Processing.
  // ---------------------------------------------------------------------

  /** The least source of a non-empty key set: the next key of an in-order `BTreeMap` walk. */
  method SmallestSource(keys: set<LogSource>) returns (least: LogSource)
    requires keys != {}
    ensures least in keys
    ensures forall k :: k in keys && k != least ==> SourceLess(least, k)
  {
    least :| least in keys;
    var unseen := keys - {least};
    while unseen != {}
      invariant unseen <= keys && least in keys && least !in unseen
      invariant forall k :: k in keys && k !in unseen && k != least ==> SourceLess(least, k)
      decreases unseen
    {
      var k :| k in unseen;
      SourceLessIsStrictTotalOrder(least, k, k);
      if SourceLess(k, least) {
        forall j | j in keys && j !in unseen && j != least
          ensures SourceLess(k, j)
        {
          SourceLessIsStrictTotalOrder(k, least, j);
        }
        least := k;
      }
      unseen := unseen - {k};
    }
  }

  /** Runs the jobs for `order` one after the other, on the logs of `snapshot`; the first panic ends the run. */
  function AfterJobs(v: StateValue, snapshot: map<LogSource, Log>, order: seq<LogSource>,
                     decode: Log -> Option<u256>, fibonacci: nat -> nat, rpcFor: LogSource -> JobRpc)
    : (r: (StateValue, Result<seq<JobReport>, Panic>))
    requires forall i :: 0 <= i < |order| ==> order[i] in snapshot
    decreases |order|
    ensures r.0 == v.(logsToProcess := r.0.logsToProcess, processedLogs := r.0.processedLogs, nonce := r.0.nonce)
    ensures r.1.Ok? ==> |r.1.value| == |order|
  {
    if order == [] then (v, Ok([]))
    else
      var n := |order| - 1;
      var done := AfterJobs(v, snapshot, order[..n], decode, fibonacci, rpcFor);
      if done.1.Err? then done
      else
        var job := AfterJob(done.0, order[n], snapshot[order[n]], decode, fibonacci, rpcFor(order[n]));
        if job.1.Err? then (job.0, Err(job.1.error)) else (job.0, Ok(done.1.value + [job.1.value]))
  }

  /** One report per source of `order`, in that order. */
  predicate ReportsFollow(reports: seq<JobReport>, order: seq<LogSource>) {
    |reports| == |order| && forall i :: 0 <= i < |order| ==> reports[i].source == order[i]
  }

  lemma ReportsFollowStep(reports: seq<JobReport>, order: seq<LogSource>, last: JobReport)
    requires order != [] && ReportsFollow(reports, order[..|order| - 1]) && last.source == order[|order| - 1]
    ensures ReportsFollow(reports + [last], order)
  {
    forall i | 0 <= i < |order|
      ensures (reports + [last])[i].source == order[i]
    {
      if i < |order| - 1 {
        assert (reports + [last])[i] == reports[i] && order[..|order| - 1][i] == order[i];
      }
    }
  }

  /** A run without panic reports once per job, in the order the jobs ran. */
  lemma {:induction false} DrainReportsFollowOrder(v: StateValue, snapshot: map<LogSource, Log>, order: seq<LogSource>,
                                                   decode: Log -> Option<u256>, fibonacci: nat -> nat,
                                                   rpcFor: LogSource -> JobRpc)
    requires forall i :: 0 <= i < |order| ==> order[i] in snapshot
    requires AfterJobs(v, snapshot, order, decode, fibonacci, rpcFor).1.Ok?
    ensures ReportsFollow(AfterJobs(v, snapshot, order, decode, fibonacci, rpcFor).1.value, order)
    decreases |order|
  {
    if order != [] {
      var n := |order| - 1;
      DrainPrefixOk(v, snapshot, order, decode, fibonacci, rpcFor);
      DrainReportsFollowOrder(v, snapshot, order[..n], decode, fibonacci, rpcFor);
      DrainStep(v, snapshot, order, decode, fibonacci, rpcFor);
      var done := AfterJobs(v, snapshot, order[..n], decode, fibonacci, rpcFor);
      var job := AfterJob(done.0, order[n], snapshot[order[n]], decode, fibonacci, rpcFor(order[n]));
      ReportsFollowStep(done.1.value, order, job.1.value);
    }
  }

  /** A run never adds a waiting source, and a source no job names stays waiting with its log. */
  lemma {:induction false} DrainWaiting(v: StateValue, snapshot: map<LogSource, Log>, order: seq<LogSource>,
                                        decode: Log -> Option<u256>, fibonacci: nat -> nat,
                                        rpcFor: LogSource -> JobRpc)
    requires forall i :: 0 <= i < |order| ==> order[i] in snapshot
    ensures var after := AfterJobs(v, snapshot, order, decode, fibonacci, rpcFor).0;
            && (forall k :: k in after.logsToProcess ==>
                  k in v.logsToProcess && after.logsToProcess[k] == v.logsToProcess[k])
            && (forall k :: k in v.logsToProcess && k !in order ==> k in after.logsToProcess)
    decreases |order|
  {
    if order != [] {
      var n := |order| - 1;
      var prefix := order[..n];
      DrainWaiting(v, snapshot, prefix, decode, fibonacci, rpcFor);
      var before := AfterJobs(v, snapshot, prefix, decode, fibonacci, rpcFor).0;
      var after := AfterJobs(v, snapshot, order, decode, fibonacci, rpcFor).0;
      assert after.logsToProcess.Keys <= before.logsToProcess.Keys;
      assert forall k :: k in before.logsToProcess && k != order[n] ==> k in after.logsToProcess;
      forall k | k in v.logsToProcess && k !in order
        ensures k in after.logsToProcess
      {
        assert k !in prefix;
      }
    }
  }

  /** A run only makes named sources processed. */
  lemma {:induction false} DrainProcessedOnlyNamed(v: StateValue, snapshot: map<LogSource, Log>, order: seq<LogSource>,
                                                   decode: Log -> Option<u256>, fibonacci: nat -> nat,
                                                   rpcFor: LogSource -> JobRpc)
    requires forall i :: 0 <= i < |order| ==> order[i] in snapshot
    ensures forall k :: k in AfterJobs(v, snapshot, order, decode, fibonacci, rpcFor).0.processedLogs ==>
              k in v.processedLogs || k in order
    decreases |order|
  {
    if order != [] {
      var n := |order| - 1;
      var prefix := order[..n];
      DrainProcessedOnlyNamed(v, snapshot, prefix, decode, fibonacci, rpcFor);
      var before := AfterJobs(v, snapshot, prefix, decode, fibonacci, rpcFor).0;
      var after := AfterJobs(v, snapshot, order, decode, fibonacci, rpcFor).0;
      assert after.processedLogs.Keys <= before.processedLogs.Keys + {order[n]};
      forall k | k in after.processedLogs
        ensures k in v.processedLogs || k in order
      {
        if k != order[n] && k !in v.processedLogs {
          var i :| 0 <= i < |prefix| && prefix[i] == k;
          assert order[i] == k;
        }
      }
    }
  }

  /** Under the store invariant a run leaves every processed entry as it was. */
  lemma {:induction false} DrainKeepsProcessed(v: StateValue, snapshot: map<LogSource, Log>, order: seq<LogSource>,
                                               decode: Log -> Option<u256>, fibonacci: nat -> nat,
                                               rpcFor: LogSource -> JobRpc)
    requires StoreInvariant(v)
    requires forall i :: 0 <= i < |order| ==> order[i] in snapshot
    ensures var after := AfterJobs(v, snapshot, order, decode, fibonacci, rpcFor).0;
            forall k :: k in v.processedLogs ==> k in after.processedLogs && after.processedLogs[k] == v.processedLogs[k]
    decreases |order|
  {
    if order != [] {
      var n := |order| - 1;
      DrainKeepsProcessed(v, snapshot, order[..n], decode, fibonacci, rpcFor);
      DrainKeepsInvariant(v, snapshot, order[..n], decode, fibonacci, rpcFor);
    }
  }

  /**
   * Every source of `moved` went from `waiting` to `processed` with its log;
   * the store map `processed` and the waiting map `left` are the state after
   * the moves.
   */
  ghost predicate MovedFrom(waiting: map<LogSource, Log>, moved: seq<LogSource>,
                            left: map<LogSource, Log>, processed: map<LogSource, Log>)
  {
    forall i :: 0 <= i < |moved| ==>
      && moved[i] in waiting
      && moved[i] !in left
      && moved[i] in processed
      && processed[moved[i]] == waiting[moved[i]]
  }

  /** Moving one more waiting source keeps the earlier moves in place. */
  lemma MovedFromStep(waiting: map<LogSource, Log>, moved: seq<LogSource>,
                      left: map<LogSource, Log>, processed: map<LogSource, Log>)
    requires moved != [] && MovedFrom(waiting, moved[..|moved| - 1], left, processed)
    requires var source := moved[|moved| - 1];
             source in left && source in waiting && left[source] == waiting[source]
    ensures var source := moved[|moved| - 1];
            MovedFrom(waiting, moved, left - {source}, processed[source := left[source]])
  {
    var n := |moved| - 1;
    var source := moved[n];
    forall i | 0 <= i < |moved|
      ensures && moved[i] in waiting && moved[i] !in left - {source}
              && moved[i] in processed[source := left[source]]
              && processed[source := left[source]][moved[i]] == waiting[moved[i]]
    {
      if i < n {
        assert moved[..n][i] == moved[i] && moved[i] != source;
      }
    }
  }

  /** A run without panic has moved every named source, with its log, from waiting to processed. */
  lemma {:induction false} DrainMovesNamed(v: StateValue, snapshot: map<LogSource, Log>, order: seq<LogSource>,
                                           decode: Log -> Option<u256>, fibonacci: nat -> nat,
                                           rpcFor: LogSource -> JobRpc)
    requires forall i :: 0 <= i < |order| ==> order[i] in snapshot
    requires AfterJobs(v, snapshot, order, decode, fibonacci, rpcFor).1.Ok?
    ensures var after := AfterJobs(v, snapshot, order, decode, fibonacci, rpcFor).0;
            MovedFrom(v.logsToProcess, order, after.logsToProcess, after.processedLogs)
    decreases |order|
  {
    if order != [] {
      var n := |order| - 1;
      DrainPrefixOk(v, snapshot, order, decode, fibonacci, rpcFor);
      DrainMovesNamed(v, snapshot, order[..n], decode, fibonacci, rpcFor);
      DrainWaiting(v, snapshot, order[..n], decode, fibonacci, rpcFor);
      DrainStep(v, snapshot, order, decode, fibonacci, rpcFor);
      var before := AfterJobs(v, snapshot, order[..n], decode, fibonacci, rpcFor).0;
      // the last job succeeded, so its source was still waiting
      assert order[n] in before.logsToProcess;
      MovedFromStep(v.logsToProcess, order, before.logsToProcess, before.processedLogs);
    }
  }

  /** One more job at the end of a run that has not panicked. */
  lemma DrainStep(v: StateValue, snapshot: map<LogSource, Log>, order: seq<LogSource>,
                  decode: Log -> Option<u256>, fibonacci: nat -> nat, rpcFor: LogSource -> JobRpc)
    requires forall i :: 0 <= i < |order| ==> order[i] in snapshot
    requires order != [] && AfterJobs(v, snapshot, order[..|order| - 1], decode, fibonacci, rpcFor).1.Ok?
    ensures var done := AfterJobs(v, snapshot, order[..|order| - 1], decode, fibonacci, rpcFor);
            var source := order[|order| - 1];
            var job := AfterJob(done.0, source, snapshot[source], decode, fibonacci, rpcFor(source));
            AfterJobs(v, snapshot, order, decode, fibonacci, rpcFor)
            == if job.1.Err? then (job.0, Err(job.1.error)) else (job.0, Ok(done.1.value + [job.1.value]))
  {
  }

  /** Job `i` of a run, run after jobs `0..i` without panic. */
  lemma DrainStepAt(v: StateValue, snapshot: map<LogSource, Log>, order: seq<LogSource>, i: nat,
                    decode: Log -> Option<u256>, fibonacci: nat -> nat, rpcFor: LogSource -> JobRpc)
    requires forall j :: 0 <= j < |order| ==> order[j] in snapshot
    requires i < |order| && AfterJobs(v, snapshot, order[..i], decode, fibonacci, rpcFor).1.Ok?
    ensures var done := AfterJobs(v, snapshot, order[..i], decode, fibonacci, rpcFor);
            var job := AfterJob(done.0, order[i], snapshot[order[i]], decode, fibonacci, rpcFor(order[i]));
            AfterJobs(v, snapshot, order[..i + 1], decode, fibonacci, rpcFor)
            == if job.1.Err? then (job.0, Err(job.1.error)) else (job.0, Ok(done.1.value + [job.1.value]))
  {
    assert order[..i + 1][..i] == order[..i];
    DrainStep(v, snapshot, order[..i + 1], decode, fibonacci, rpcFor);
  }

  /** A run, panicking or not, keeps the store invariant. */
  lemma {:induction false} DrainKeepsInvariant(v: StateValue, snapshot: map<LogSource, Log>, order: seq<LogSource>,
                                               decode: Log -> Option<u256>, fibonacci: nat -> nat,
                                               rpcFor: LogSource -> JobRpc)
    requires StoreInvariant(v)
    requires forall i :: 0 <= i < |order| ==> order[i] in snapshot
    ensures StoreInvariant(AfterJobs(v, snapshot, order, decode, fibonacci, rpcFor).0)
    decreases |order|
  {
    if order != [] {
      DrainKeepsInvariant(v, snapshot, order[..|order| - 1], decode, fibonacci, rpcFor);
    }
  }

  /** A run that has not panicked had not panicked one job earlier either. */
  lemma DrainPrefixOk(v: StateValue, snapshot: map<LogSource, Log>, order: seq<LogSource>,
                      decode: Log -> Option<u256>, fibonacci: nat -> nat, rpcFor: LogSource -> JobRpc)
    requires forall i :: 0 <= i < |order| ==> order[i] in snapshot
    requires order != [] && AfterJobs(v, snapshot, order, decode, fibonacci, rpcFor).1.Ok?
    ensures AfterJobs(v, snapshot, order[..|order| - 1], decode, fibonacci, rpcFor).1.Ok?
  {
  }

  /** Within a run, the store's own checks never fire: no job is run twice. */
  lemma {:induction false} DrainNeverRunsJobTwice(v: StateValue, snapshot: map<LogSource, Log>, order: seq<LogSource>,
                                                  decode: Log -> Option<u256>, fibonacci: nat -> nat,
                                                  rpcFor: LogSource -> JobRpc)
    requires StoreInvariant(v)
    requires forall i :: 0 <= i < |order| ==> order[i] in snapshot
    ensures !AfterJobs(v, snapshot, order, decode, fibonacci, rpcFor).1.Err?
            || !AfterJobs(v, snapshot, order, decode, fibonacci, rpcFor).1.error.JobRunTwice?
    decreases |order|
  {
    if order != [] {
      var n := |order| - 1;
      DrainNeverRunsJobTwice(v, snapshot, order[..n], decode, fibonacci, rpcFor);
      DrainKeepsInvariant(v, snapshot, order[..n], decode, fibonacci, rpcFor);
      var done := AfterJobs(v, snapshot, order[..n], decode, fibonacci, rpcFor);
      if done.1.Err? {
        DrainStopsAtPanic(v, snapshot, order, n, decode, fibonacci, rpcFor);
      } else {
        DrainStep(v, snapshot, order, decode, fibonacci, rpcFor);
        if order[n] in done.0.logsToProcess {
          JobNeverRunsTwice(done.0, order[n], snapshot[order[n]], decode, fibonacci, rpcFor(order[n]));
        }
      }
    }
  }

  /**
   * Once every waiting source has been moved, and nothing else was touched,
   * nothing is left waiting and the processed map gained exactly the moved logs.
   */
  lemma DrainedAll(waiting: map<LogSource, Log>, processed: map<LogSource, Log>, order: seq<LogSource>,
                   left: map<LogSource, Log>, processedAfter: map<LogSource, Log>)
    requires MovedFrom(waiting, order, left, processedAfter)
    requires forall k :: k in waiting ==> k in order
    requires forall k :: k in left ==> k in waiting
    requires forall k :: k in processedAfter ==> k in processed || k in order
    requires forall k :: k in processed ==> k in processedAfter && processedAfter[k] == processed[k]
    ensures left == map[]
    ensures processedAfter == processed + waiting
  {
    forall k | k in waiting
      ensures k !in left && k in processedAfter && processedAfter[k] == waiting[k]
    {
      var i :| 0 <= i < |order| && order[i] == k;
    }
  }

  /**
   * A run without panic over every waiting source leaves nothing waiting and
   * adds the whole snapshot to the processed map.
   */
  lemma DrainEmptiesSnapshot(v: StateValue, order: seq<LogSource>,
                             decode: Log -> Option<u256>, fibonacci: nat -> nat, rpcFor: LogSource -> JobRpc)
    requires StoreInvariant(v)
    requires forall i :: 0 <= i < |order| ==> order[i] in v.logsToProcess
    requires forall k :: k in v.logsToProcess ==> k in order
    requires AfterJobs(v, v.logsToProcess, order, decode, fibonacci, rpcFor).1.Ok?
    ensures AfterJobs(v, v.logsToProcess, order, decode, fibonacci, rpcFor).0.logsToProcess == map[]
    ensures AfterJobs(v, v.logsToProcess, order, decode, fibonacci, rpcFor).0.processedLogs
            == v.processedLogs + v.logsToProcess
  {
    var after := AfterJobs(v, v.logsToProcess, order, decode, fibonacci, rpcFor).0;
    DrainWaiting(v, v.logsToProcess, order, decode, fibonacci, rpcFor);
    DrainProcessedOnlyNamed(v, v.logsToProcess, order, decode, fibonacci, rpcFor);
    DrainKeepsProcessed(v, v.logsToProcess, order, decode, fibonacci, rpcFor);
    DrainMovesNamed(v, v.logsToProcess, order, decode, fibonacci, rpcFor);
    DrainedAll(v.logsToProcess, v.processedLogs, order, after.logsToProcess, after.processedLogs);
  }

  /** A run that has panicked at job `n` is not changed by the jobs after it. */
  lemma {:induction false} DrainStopsAtPanic(v: StateValue, snapshot: map<LogSource, Log>, order: seq<LogSource>, n: nat,
                                             decode: Log -> Option<u256>, fibonacci: nat -> nat,
                                             rpcFor: LogSource -> JobRpc)
    requires forall i :: 0 <= i < |order| ==> order[i] in snapshot
    requires n <= |order| && AfterJobs(v, snapshot, order[..n], decode, fibonacci, rpcFor).1.Err?
    ensures AfterJobs(v, snapshot, order, decode, fibonacci, rpcFor)
            == AfterJobs(v, snapshot, order[..n], decode, fibonacci, rpcFor)
    decreases |order| - n
  {
    if n < |order| {
      assert order[..n + 1][..n] == order[..n];
      DrainStopsAtPanic(v, snapshot, order, n + 1, decode, fibonacci, rpcFor);
    } else {
      assert order[..n] == order;
    }
  }

  /**
   * Over distinct sources that were all waiting and none processed, the
   * sources a run has not reached yet are still waiting and not processed.
   */
  lemma UnvisitedStillWaiting(v: StateValue, snapshot: map<LogSource, Log>, order: seq<LogSource>, i: nat,
                              decode: Log -> Option<u256>, fibonacci: nat -> nat, rpcFor: LogSource -> JobRpc)
    requires forall j :: 0 <= j < |order| ==>
               order[j] in snapshot && order[j] in v.logsToProcess && order[j] !in v.processedLogs
    requires forall j, k :: 0 <= j < k < |order| ==> order[j] != order[k]
    requires i <= |order|
    ensures var before := AfterJobs(v, snapshot, order[..i], decode, fibonacci, rpcFor).0;
            forall j :: i <= j < |order| ==> order[j] in before.logsToProcess && order[j] !in before.processedLogs
  {
    var before := AfterJobs(v, snapshot, order[..i], decode, fibonacci, rpcFor).0;
    DrainWaiting(v, snapshot, order[..i], decode, fibonacci, rpcFor);
    DrainProcessedOnlyNamed(v, snapshot, order[..i], decode, fibonacci, rpcFor);
    forall j | i <= j < |order|
      ensures order[j] in before.logsToProcess && order[j] !in before.processedLogs
    {
      forall k | 0 <= k < i
        ensures order[..i][k] != order[j]
      {
        assert order[..i][k] == order[k];
      }
    }
  }

  /** The run up to and including a job whose log fails to decode. */
  lemma DecodeFailureAt(v: StateValue, snapshot: map<LogSource, Log>, order: seq<LogSource>, i: nat,
                        decode: Log -> Option<u256>, fibonacci: nat -> nat, rpcFor: LogSource -> JobRpc)
    requires forall j :: 0 <= j < |order| ==>
               order[j] in snapshot && order[j] in v.logsToProcess && order[j] !in v.processedLogs
    requires forall j, k :: 0 <= j < k < |order| ==> order[j] != order[k]
    requires i < |order| && AfterJobs(v, snapshot, order[..i], decode, fibonacci, rpcFor).1.Ok?
    requires decode(snapshot[order[i]]).None?
    ensures AfterJobs(v, snapshot, order[..i + 1], decode, fibonacci, rpcFor).1 == Err(DecodeFailed(order[i]))
    ensures order[i] in AfterJobs(v, snapshot, order[..i + 1], decode, fibonacci, rpcFor).0.processedLogs
    ensures AfterJobs(v, snapshot, order[..i + 1], decode, fibonacci, rpcFor).0.nonce
            == AfterJobs(v, snapshot, order[..i], decode, fibonacci, rpcFor).0.nonce
    ensures forall j :: i < j < |order| ==>
              order[j] in AfterJobs(v, snapshot, order[..i + 1], decode, fibonacci, rpcFor).0.logsToProcess
  {
    var before := AfterJobs(v, snapshot, order[..i], decode, fibonacci, rpcFor).0;
    var source := order[i];
    UnvisitedStillWaiting(v, snapshot, order, i, decode, fibonacci, rpcFor);
    UndecodableLogIsDropped(before, source, snapshot[source], decode, fibonacci, rpcFor(source));
    DrainStepAt(v, snapshot, order, i, decode, fibonacci, rpcFor);
  }

  /**
   * A log that fails to decode ends the run: its source is processed, nothing
   * is submitted for it, and the sources after it are still waiting.
   */
  lemma DecodeFailureEndsDrain(v: StateValue, snapshot: map<LogSource, Log>, order: seq<LogSource>, i: nat,
                               decode: Log -> Option<u256>, fibonacci: nat -> nat, rpcFor: LogSource -> JobRpc)
    requires forall j :: 0 <= j < |order| ==>
               order[j] in snapshot && order[j] in v.logsToProcess && order[j] !in v.processedLogs
    requires forall j, k :: 0 <= j < k < |order| ==> order[j] != order[k]
    requires i < |order| && AfterJobs(v, snapshot, order[..i], decode, fibonacci, rpcFor).1.Ok?
    requires decode(snapshot[order[i]]).None?
    ensures AfterJobs(v, snapshot, order, decode, fibonacci, rpcFor).1 == Err(DecodeFailed(order[i]))
    ensures order[i] in AfterJobs(v, snapshot, order, decode, fibonacci, rpcFor).0.processedLogs
    ensures AfterJobs(v, snapshot, order, decode, fibonacci, rpcFor).0.nonce
            == AfterJobs(v, snapshot, order[..i], decode, fibonacci, rpcFor).0.nonce
    ensures forall j :: i < j < |order| ==> order[j] in AfterJobs(v, snapshot, order, decode, fibonacci, rpcFor).0.logsToProcess
  {
    DecodeFailureAt(v, snapshot, order, i, decode, fibonacci, rpcFor);
    DrainStopsAtPanic(v, snapshot, order, i + 1, decode, fibonacci, rpcFor);
  }

  /** The conditions under which every job of a run submits and has its transaction confirmed. */
  ghost predicate AllConfirm(v: StateValue, snapshot: map<LogSource, Log>, order: seq<LogSource>,
                             decode: Log -> Option<u256>, rpcFor: LogSource -> JobRpc)
    requires forall i :: 0 <= i < |order| ==> order[i] in snapshot
  {
    && v.signer.Some? && v.canisterEvmAddress.Some? && |v.filterAddresses| > 0
    && forall i :: 0 <= i < |order| ==>
         && decode(snapshot[order[i]]).Some?
         && rpcFor(order[i]).submit.send.Sent?
         && rpcFor(order[i]).submit.probe == TransactionFound
         && rpcFor(order[i]).readOk
  }

  /** Every report's transaction is confirmed, and they use the nonces after `n` in turn. */
  predicate ConfirmedFrom(reports: seq<JobReport>, n: nat) {
    forall i :: 0 <= i < |reports| ==>
      reports[i].submission.tx.nonce == n + i + 1 && reports[i].submission.status.Confirmed?
  }

  lemma ConfirmedFromStep(reports: seq<JobReport>, n: nat, last: JobReport)
    requires ConfirmedFrom(reports, n)
    requires last.submission.tx.nonce == n + |reports| + 1 && last.submission.status.Confirmed?
    ensures ConfirmedFrom(reports + [last], n)
  {
    forall i | 0 <= i < |reports| + 1
      ensures (reports + [last])[i].submission.tx.nonce == n + i + 1
      ensures (reports + [last])[i].submission.status.Confirmed?
    {
      if i < |reports| {
        assert (reports + [last])[i] == reports[i];
      }
    }
  }

  /** The preconditions of a confirmed run hold for every prefix of it. */
  lemma AllConfirmPrefix(v: StateValue, snapshot: map<LogSource, Log>, order: seq<LogSource>, m: nat,
                         decode: Log -> Option<u256>, rpcFor: LogSource -> JobRpc)
    requires forall j :: 0 <= j < |order| ==>
               order[j] in snapshot && order[j] in v.logsToProcess && order[j] !in v.processedLogs
    requires forall j, k :: 0 <= j < k < |order| ==> order[j] != order[k]
    requires AllConfirm(v, snapshot, order, decode, rpcFor)
    requires m <= |order|
    ensures forall j :: 0 <= j < m ==>
              order[..m][j] in snapshot && order[..m][j] in v.logsToProcess && order[..m][j] !in v.processedLogs
    ensures forall j, k :: 0 <= j < k < m ==> order[..m][j] != order[..m][k]
    ensures AllConfirm(v, snapshot, order[..m], decode, rpcFor)
  {
    assert forall j :: 0 <= j < m ==> order[..m][j] == order[j];
  }

  /**
   * Starting from a stored nonce `n`, a run whose transactions are all
   * confirmed uses the nonces n+1, n+2, ... in order and stores the last.
   */
  lemma {:induction false} ConfirmedDrainNonces(v: StateValue, snapshot: map<LogSource, Log>, order: seq<LogSource>, n: u64,
                                                decode: Log -> Option<u256>, fibonacci: nat -> nat,
                                                rpcFor: LogSource -> JobRpc)
    requires forall j :: 0 <= j < |order| ==>
               order[j] in snapshot && order[j] in v.logsToProcess && order[j] !in v.processedLogs
    requires forall j, k :: 0 <= j < k < |order| ==> order[j] != order[k]
    requires AllConfirm(v, snapshot, order, decode, rpcFor)
    requires v.nonce == Some(n) && n + |order| < U64_MODULUS
    ensures AfterJobs(v, snapshot, order, decode, fibonacci, rpcFor).1.Ok?
    ensures AfterJobs(v, snapshot, order, decode, fibonacci, rpcFor).0.nonce.Some?
    ensures AfterJobs(v, snapshot, order, decode, fibonacci, rpcFor).0.nonce.value == n + |order|
    ensures ConfirmedFrom(AfterJobs(v, snapshot, order, decode, fibonacci, rpcFor).1.value, n)
    decreases |order|
  {
    if order != [] {
      var m := |order| - 1;
      AllConfirmPrefix(v, snapshot, order, m, decode, rpcFor);
      ConfirmedDrainNonces(v, snapshot, order[..m], n, decode, fibonacci, rpcFor);
      UnvisitedStillWaiting(v, snapshot, order, m, decode, fibonacci, rpcFor);
      var done := AfterJobs(v, snapshot, order[..m], decode, fibonacci, rpcFor);
      var source := order[m];
      ConfirmedJob(done.0, source, snapshot[source], decode, fibonacci, rpcFor(source));
      var job := AfterJob(done.0, source, snapshot[source], decode, fibonacci, rpcFor(source));
      DrainStep(v, snapshot, order, decode, fibonacci, rpcFor);
      ConfirmedFromStep(done.1.value, n, job.1.value);
    }
  }

  /**
   * A run never moves a stored nonce backwards: each job advances it by at
   * most one (below the `u64` limit).
   */
  lemma {:induction false} DrainNonceNeverDecreases(v: StateValue, snapshot: map<LogSource, Log>, order: seq<LogSource>, n: u64,
                                                    decode: Log -> Option<u256>, fibonacci: nat -> nat,
                                                    rpcFor: LogSource -> JobRpc)
    requires forall j :: 0 <= j < |order| ==> order[j] in snapshot
    requires v.nonce == Some(n) && n + |order| < U64_MODULUS
    ensures var after := AfterJobs(v, snapshot, order, decode, fibonacci, rpcFor).0;
            after.nonce.Some? && n <= after.nonce.value <= n + |order|
    decreases |order|
  {
    if order != [] {
      var m := |order| - 1;
      DrainNonceNeverDecreases(v, snapshot, order[..m], n, decode, fibonacci, rpcFor);
      var before := AfterJobs(v, snapshot, order[..m], decode, fibonacci, rpcFor).0;
      JobNonce(before, order[m], snapshot[order[m]], decode, fibonacci, rpcFor(order[m]));
    }
  }

  /** The keys of the waiting map in ascending order: the order a `BTreeMap` iterates in. */
  method SortedSources(keys: set<LogSource>) returns (sorted: seq<LogSource>)
    ensures Ascending(sorted)
    ensures forall k :: k in keys <==> k in sorted
  {
    var remaining := keys;
    sorted := [];
    while remaining != {}
      invariant remaining <= keys
      invariant forall k :: k in keys <==> k in sorted || k in remaining
      invariant forall i :: 0 <= i < |sorted| ==> sorted[i] !in remaining
      invariant Ascending(sorted)
      invariant forall i, k :: 0 <= i < |sorted| && k in remaining ==> SourceLess(sorted[i], k)
      decreases remaining
    {
      var next := SmallestSource(remaining);
      sorted := sorted + [next];
      remaining := remaining - {next};
    }
  }

  /**
   * Runs one job per source of `sorted`, in that order, on the logs of
   * `snapshot`; a panic ends the run.  `started` lists the sources whose job
   * was started: on a panic it ends with the job that panicked.
   */
  method RunJobs(s: State, snapshot: map<LogSource, Log>, sorted: seq<LogSource>,
                 decode: Log -> Option<u256>, fibonacci: nat -> nat, rpcFor: LogSource -> JobRpc)
    returns (r: Result<seq<JobReport>, Panic>, started: seq<LogSource>)
    requires forall i :: 0 <= i < |sorted| ==> sorted[i] in snapshot
    modifies s`logsToProcess, s`processedLogs, s`nonce
    ensures |started| <= |sorted| && started == sorted[..|started|]
    ensures r.Ok? ==> started == sorted
    ensures r.Err? ==>
              && |started| > 0
              && AfterJobs(old(s.Value()), snapshot, started[..|started| - 1], decode, fibonacci, rpcFor).1.Ok?
    ensures (s.Value(), r) == AfterJobs(old(s.Value()), snapshot, started, decode, fibonacci, rpcFor)
  {
    ghost var start := s.Value();
    var reports: seq<JobReport> := [];
    var i := 0;
    while i < |sorted|
      invariant 0 <= i <= |sorted|
      invariant AfterJobs(start, snapshot, sorted[..i], decode, fibonacci, rpcFor) == (s.Value(), Ok(reports))
    {
      var source := sorted[i];
      var report := Job(s, source, snapshot[source], decode, fibonacci, rpcFor(source));
      DrainStepAt(start, snapshot, sorted, i, decode, fibonacci, rpcFor);
      if report.Err? {
        assert sorted[..i + 1][..i] == sorted[..i];
        return Err(report.error), sorted[..i + 1];
      }
      reports := reports + [report.value];
      i := i + 1;
    }
    assert sorted[..i] == sorted;
    r, started := Ok(reports), sorted;
  }

  /**
   * A prefix of the ascending key sequence is ascending, and every key it
   * does not reach is greater than all the keys it holds.
   */
  lemma SortedPrefix(keys: set<LogSource>, sorted: seq<LogSource>, n: nat)
    requires Ascending(sorted) && (forall k :: k in keys <==> k in sorted) && n <= |sorted|
    ensures Ascending(sorted[..n])
    ensures forall i :: 0 <= i < n ==> sorted[..n][i] in keys
    ensures forall k :: k in keys && k !in sorted[..n] ==>
              n < |sorted| && forall i :: 0 <= i < n ==> SourceLess(sorted[..n][i], k)
  {
    forall k | k in keys && k !in sorted[..n]
      ensures n < |sorted| && forall i :: 0 <= i < n ==> SourceLess(sorted[..n][i], k)
    {
      var j :| 0 <= j < |sorted| && sorted[j] == k;
      if j < n {
        assert false;
      }
    }
  }

  /**
   * `process_logs`: unless an instance is already running, copies the
   * waiting map once and runs one job per copied entry in ascending source
   * order.  `order` lists the sources whose job was started: on a panic it
   * ends with the job that panicked.
   */
  method ProcessLogs(s: State, decode: Log -> Option<u256>, fibonacci: nat -> nat, rpcFor: LogSource -> JobRpc)
    returns (r: Result<DrainOutcome, Panic>, order: seq<LogSource>)
    modifies s`activeTasks, s`logsToProcess, s`processedLogs, s`nonce
    ensures s.activeTasks == old(s.activeTasks) + {TaskType.ProcessLogs}
    ensures TaskType.ProcessLogs in old(s.activeTasks) ==>
              r == Ok(Skipped) && order == [] && s.Value() == old(s.Value())
    ensures TaskType.ProcessLogs !in old(s.activeTasks) ==>
              && Ascending(order)
              && (forall i :: 0 <= i < |order| ==> order[i] in old(s.logsToProcess))
              && (forall k :: k in old(s.logsToProcess) && k !in order ==>
                    r.Err? && forall i :: 0 <= i < |order| ==> SourceLess(order[i], k))
              && (r.Err? ==>
                    && |order| > 0
                    && AfterJobs(old(s.Value()).(activeTasks := s.activeTasks), old(s.logsToProcess),
                                 order[..|order| - 1], decode, fibonacci, rpcFor).1.Ok?)
              && var drained := AfterJobs(old(s.Value()).(activeTasks := s.activeTasks),
                                          old(s.logsToProcess), order, decode, fibonacci, rpcFor);
                 && s.Value() == drained.0
                 && r == if drained.1.Ok? then Ok(Drained(drained.1.value)) else Err(drained.1.error)
  {
    var acquired := s.AcquireGuard(TaskType.ProcessLogs);
    if !acquired {
      return Ok(Skipped), [];
    }
    var snapshot := s.logsToProcess;
    var sorted := SortedSources(snapshot.Keys);
    var outcome;
    outcome, order := RunJobs(s, snapshot, sorted, decode, fibonacci, rpcFor);
    SortedPrefix(snapshot.Keys, sorted, |order|);
    r := if outcome.Ok? then Ok(Drained(outcome.value)) else Err(outcome.error);
  }
}
