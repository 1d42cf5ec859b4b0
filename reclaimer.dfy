/**
 * The reclaimer of bot/src/services/reclaim.service.ts. One attempt checks the emergency stop,
 * looks the account up, then either simulates (dry run) or submits the close instruction; a
 * batch checks the stop again after every attempt and halts as soon as it is set.
 *
 * The node's answers for an account are one `ReclaimChain`. The stop file may be rewritten by
 * the operator while a batch runs: `external(m)` is what happens to it just before the batch's
 * read number `m`, where attempt `i` makes read `2i` (its own stop check) and the batch makes
 * read `2i + 1` right after it.
 */
module Reclaimer {
  import opened Wrappers
  import opened Types
  import SafetyGate
  import Ledger

  /** `simulateTransaction`: no error, an error value (serialised as JSON), or a thrown error. */
  datatype SimulationOutcome = SimulationOk | SimulationErr(json: string) | SimulationThrew(message: string)

  /** `sendAndConfirmTransaction`: the confirmed signature, or a thrown error. */
  datatype SubmitOutcome = Confirmed(signature: string) | SubmitThrew(message: string)

  /**
   * The node's answers for one account. `info` is `InfoError` when the key does not parse or
   * `getAccountInfo` throws.
   */
  datatype ReclaimChain = ReclaimChain(info: InfoLookup, simulation: SimulationOutcome, submit: SubmitOutcome)

  /** One attempt: the result returned and the ledger entry written. */
  datatype Attempt = Attempt(result: ReclaimResult, entry: Ledger.LogInput)

  const STOP_PREFIX: string := "Emergency stop is active: "
  const MISSING_REASON: string := "Account does not exist"
  const SIMULATION_PREFIX: string := "Simulation failed: "
  const DRY_RUN_REASON: string := "[DRY RUN] Simulation successful"

  /** A failed attempt with no amount. */
  function Refused(account: string, error: string, dryRun: bool, now: int): Attempt {
    Attempt(ReclaimResult(account, false, None, 0, dryRun, now, Some(error)),
            Ledger.LogInput(account, Reclaim, Failure, None, Some(error), None))
  }

  /**
   * `reclaimAccount` given the stop document it reads, the node's answers and the mode. Every
   * clock reading is `now`.
   */
  function AttemptReclaim(account: string, stop: EmergencyStopState, chain: ReclaimChain, dryRun: bool, now: int): Attempt {
    if stop.stopped then Refused(account, STOP_PREFIX + stop.reason, false, now)
    else
      match chain.info
      case InfoError(message) => Refused(account, message, dryRun, now)
      case InfoAbsent => Refused(account, MISSING_REASON, false, now)
      case InfoFound(info) =>
        var amount := info.lamports;
        if dryRun then
          match chain.simulation
          case SimulationThrew(message) => Refused(account, message, true, now)
          case SimulationErr(json) =>
            var error := SIMULATION_PREFIX + json;
            Attempt(ReclaimResult(account, false, None, amount, true, now, Some(error)),
                    Ledger.LogInput(account, Reclaim, Failure, Some(amount), Some(error), None))
          case SimulationOk =>
            Attempt(ReclaimResult(account, true, None, amount, true, now, None),
                    Ledger.LogInput(account, Reclaim, Success, Some(amount), Some(DRY_RUN_REASON), None))
        else
          match chain.submit
          case SubmitThrew(message) => Refused(account, message, false, now)
          case Confirmed(signature) =>
            Attempt(ReclaimResult(account, true, Some(signature), amount, false, now, None),
                    Ledger.LogInput(account, Reclaim, Success, Some(amount), None, Some(signature)))
  }

  /**
   * An attempt succeeds exactly when the stop is off, the account exists and the simulation
   * (dry run) or the submission (live) goes through; it then reclaims the account's lamports,
   * with the signature only when live.
   */
  lemma SuccessCharacterized(account: string, stop: EmergencyStopState, chain: ReclaimChain, dryRun: bool, now: int)
    ensures var r := AttemptReclaim(account, stop, chain, dryRun, now).result;
      && r.account == account && r.timestamp == now
      && (r.success <==> !stop.stopped && chain.info.InfoFound?
                         && (if dryRun then chain.simulation.SimulationOk? else chain.submit.Confirmed?))
      && (r.success ==> r.reclaimed == chain.info.info.lamports && r.error.None? && r.dryRun == dryRun
                        && r.signature == (if dryRun then None else Some(chain.submit.signature)))
      && (!r.success ==> r.error.Some? && r.signature.None?)
  {
  }

  /**
   * With the stop set, the attempt fails with the stop's reason whatever the node would
   * answer, and its ledger entry moves no metric.
   */
  lemma StopBlocksReclaim(account: string, stop: EmergencyStopState, chain: ReclaimChain, other: ReclaimChain,
                          dryRun: bool, now: int, m: SystemMetrics)
    requires stop.stopped
    ensures AttemptReclaim(account, stop, chain, dryRun, now) == AttemptReclaim(account, stop, other, dryRun, now)
    ensures AttemptReclaim(account, stop, chain, dryRun, now).result.error == Some(STOP_PREFIX + stop.reason)
    ensures Ledger.AfterLog(m, AttemptReclaim(account, stop, chain, dryRun, now).entry) == m
  {
  }

  /** A dry run never depends on the submission, and a live run never on the simulation. */
  lemma ModeIsolation(account: string, stop: EmergencyStopState, chain: ReclaimChain, dryRun: bool, now: int,
                      simulation: SimulationOutcome, submit: SubmitOutcome)
    ensures dryRun ==> AttemptReclaim(account, stop, chain, dryRun, now)
                       == AttemptReclaim(account, stop, chain.(submit := submit), dryRun, now)
    ensures !dryRun ==> AttemptReclaim(account, stop, chain, dryRun, now)
                        == AttemptReclaim(account, stop, chain.(simulation := simulation), dryRun, now)
  {
  }

  /**
   * The result and its ledger entry agree: same account, success exactly when the entry says
   * so, and the entry moves the reclaimed total by the result's amount when it succeeds.
   */
  predicate Agrees(a: Attempt) {
    && a.entry.account == a.result.account
    && a.entry.action == Reclaim
    && (a.entry.status == Success <==> a.result.success)
    && (Ledger.CountsAsReclaim(a.entry) ==> a.result.success && a.entry.sol.value == a.result.reclaimed)
    && (a.result.success && a.result.reclaimed != 0 ==> Ledger.CountsAsReclaim(a.entry))
  }

  function Credited(r: ReclaimResult): int {
    if r.success then r.reclaimed else 0
  }

  /** Logging an agreeing attempt adds exactly its credited amount to the reclaimed total. */
  lemma AgreeingEntryCredits(a: Attempt, m: SystemMetrics)
    requires Agrees(a)
    ensures Ledger.AfterLog(m, a.entry).totalReclaimed == m.totalReclaimed + Credited(a.result)
  {
  }

  lemma AttemptAgrees(account: string, stop: EmergencyStopState, chain: ReclaimChain, dryRun: bool, now: int)
    ensures Agrees(AttemptReclaim(account, stop, chain, dryRun, now))
  {
  }

  // ---------------------------------------------------------------------------------------
  // Batches

  /** The stop document after the first `n` interferences. */
  function FileAfter(initial: Option<EmergencyStopState>, external: nat -> SafetyGate.Interference, n: nat)
    : Option<EmergencyStopState>
  {
    if n == 0 then initial else SafetyGate.AfterInterference(FileAfter(initial, external, n - 1), external(n - 1))
  }

  /** Everything a batch depends on besides the account list. */
  datatype BatchEnv = BatchEnv(
    chain: string -> ReclaimChain,
    initial: Option<EmergencyStopState>,
    external: nat -> SafetyGate.Interference,
    dryRun: bool,
    now: int)

  /** What attempt `i` reads in its own stop check. */
  function PreCheck(env: BatchEnv, i: nat): EmergencyStopState {
    SafetyGate.StopOrDefault(FileAfter(env.initial, env.external, 2 * i + 1))
  }

  /** What the batch reads right after attempt `i`. */
  function PostCheck(env: BatchEnv, i: nat): EmergencyStopState {
    SafetyGate.StopOrDefault(FileAfter(env.initial, env.external, 2 * i + 2))
  }

  function AttemptAt(accounts: seq<string>, env: BatchEnv, i: nat): Attempt
    requires i < |accounts|
  {
    AttemptReclaim(accounts[i], PreCheck(env, i), env.chain(accounts[i]), env.dryRun, env.now)
  }

  /** `reclaimBatch` from account `i` on: attempt it, then stop if the post-check sees the stop. */
  function BatchFrom(accounts: seq<string>, env: BatchEnv, i: nat): seq<Attempt>
    requires i <= |accounts|
    decreases |accounts| - i
  {
    if i == |accounts| then []
    else if PostCheck(env, i).stopped then [AttemptAt(accounts, env, i)]
    else [AttemptAt(accounts, env, i)] + BatchFrom(accounts, env, i + 1)
  }

  function ResultsOf(attempts: seq<Attempt>): (results: seq<ReclaimResult>)
    ensures |results| == |attempts|
  {
    seq(|attempts|, k requires 0 <= k < |attempts| => attempts[k].result)
  }

  function EntryRecordsOf(attempts: seq<Attempt>, now: int): seq<Ledger.Record> {
    seq(|attempts|, k requires 0 <= k < |attempts| => Ledger.EntryRecord(Ledger.Stamp(attempts[k].entry, now)))
  }

  /**
   * The metrics after a batch's entries are logged: the reclaimed total grows by the batch's
   * successful amounts and the reclaim count by the reclaims its ledger records; no other
   * field moves.
   */
  function BatchMetrics(m: SystemMetrics, attempts: seq<Attempt>, now: int): SystemMetrics {
    m.(totalReclaimed := m.totalReclaimed + SuccessTotal(ResultsOf(attempts)),
       accountsReclaimed := m.accountsReclaimed + Ledger.ReclaimsInLedger(EntryRecordsOf(attempts, now)))
  }

  /** The batch's running total: the amounts of the successful results. */
  function SuccessTotal(results: seq<ReclaimResult>): int {
    if results == [] then 0 else SuccessTotal(results[..|results| - 1]) + Credited(results[|results| - 1])
  }

  /**
   * The shape of a batch from `i`: it attempts the accounts in order, each with the stop
   * document its own read sees; it goes on after every attempt whose post-check is clear and
   * halts right after the first one whose post-check sees the stop.
   */
  lemma {:induction false} BatchShape(accounts: seq<string>, env: BatchEnv, i: nat)
    requires i <= |accounts|
    ensures var b := BatchFrom(accounts, env, i);
      && |b| <= |accounts| - i
      && (i < |accounts| ==> |b| >= 1)
      && (forall k :: 0 <= k < |b| ==> b[k] == AttemptAt(accounts, env, i + k))
      && (forall j :: i <= j < i + |b| - 1 ==> !PostCheck(env, j).stopped)
      && (0 < |b| < |accounts| - i ==> PostCheck(env, i + |b| - 1).stopped)
    decreases |accounts| - i
  {
    if i < |accounts| && !PostCheck(env, i).stopped {
      BatchShape(accounts, env, i + 1);
      var b := BatchFrom(accounts, env, i);
      var rest := BatchFrom(accounts, env, i + 1);
      assert b == [AttemptAt(accounts, env, i)] + rest;
      forall k | 0 < k < |b|
        ensures b[k] == AttemptAt(accounts, env, i + k)
      {
        assert b[k] == rest[k - 1];
      }
    }
  }

  /** Without interference the stop file keeps its initial document. */
  lemma {:induction false} UntouchedFileStays(initial: Option<EmergencyStopState>, external: nat -> SafetyGate.Interference, n: nat)
    requires forall m :: external(m) == SafetyGate.Untouched
    ensures FileAfter(initial, external, n) == initial
  {
    if n > 0 {
      UntouchedFileStays(initial, external, n - 1);
    }
  }

  /** A stop set before the batch and left alone: one failed attempt, then the batch halts. */
  lemma StopBeforeBatch(accounts: seq<string>, env: BatchEnv)
    requires accounts != []
    requires SafetyGate.StopOrDefault(env.initial).stopped
    requires forall m :: env.external(m) == SafetyGate.Untouched
    ensures ResultsOf(BatchFrom(accounts, env, 0))
            == [ReclaimResult(accounts[0], false, None, 0, false, env.now,
                              Some(STOP_PREFIX + SafetyGate.StopOrDefault(env.initial).reason))]
  {
    UntouchedFileStays(env.initial, env.external, 1);
    UntouchedFileStays(env.initial, env.external, 2);
  }

  /** With the stop off and left alone, every account is attempted, in order. */
  lemma NoStopAttemptsAll(accounts: seq<string>, env: BatchEnv)
    requires !SafetyGate.StopOrDefault(env.initial).stopped
    requires forall m :: env.external(m) == SafetyGate.Untouched
    ensures |BatchFrom(accounts, env, 0)| == |accounts|
    ensures forall k :: 0 <= k < |accounts| ==> ResultsOf(BatchFrom(accounts, env, 0))[k].account == accounts[k]
  {
    var b := BatchFrom(accounts, env, 0);
    BatchShape(accounts, env, 0);
    if 0 < |b| < |accounts| {
      UntouchedFileStays(env.initial, env.external, 2 * (|b| - 1) + 2);
      assert false;
    }
    forall k | 0 <= k < |accounts|
      ensures ResultsOf(b)[k].account == accounts[k]
    {
      assert b[k] == AttemptAt(accounts, env, k);
      SuccessCharacterized(accounts[k], PreCheck(env, k), env.chain(accounts[k]), env.dryRun, env.now);
    }
  }

  /**
   * The operator sets the stop while attempt `i` is in flight (between its own check and the
   * batch's check after it): the batch ends with that attempt, and only accounts up to `i`
   * are attempted.
   */
  lemma StopDuringAttempt(accounts: seq<string>, env: BatchEnv, i: nat, reason: string, at: int)
    requires i < |accounts|
    requires !SafetyGate.StopOrDefault(env.initial).stopped
    requires env.external(2 * i + 1) == SafetyGate.Overwritten(Some(EmergencyStopState(true, Some(at), reason)))
    requires forall m :: m != 2 * i + 1 ==> env.external(m) == SafetyGate.Untouched
    ensures |BatchFrom(accounts, env, 0)| == i + 1
  {
    var b := BatchFrom(accounts, env, 0);
    BatchShape(accounts, env, 0);
    forall n: nat | n <= 2 * i + 1
      ensures FileAfter(env.initial, env.external, n) == env.initial
    {
      FileBeforeStop(env, i, n);
    }
    assert FileAfter(env.initial, env.external, 2 * i + 2) == Some(EmergencyStopState(true, Some(at), reason));
    forall j | 0 <= j < i
      ensures !PostCheck(env, j).stopped
    {
      FileBeforeStop(env, i, 2 * j + 2);
    }
    assert PostCheck(env, i).stopped;
  }

  lemma {:induction false} FileBeforeStop(env: BatchEnv, i: nat, n: nat)
    requires n <= 2 * i + 1
    requires forall m :: m != 2 * i + 1 ==> env.external(m) == SafetyGate.Untouched
    ensures FileAfter(env.initial, env.external, n) == env.initial
  {
    if n > 0 {
      FileBeforeStop(env, i, n - 1);
    }
  }

  /** Every attempt of a batch agrees with its ledger entry. */
  lemma BatchAgrees(accounts: seq<string>, env: BatchEnv)
    ensures forall k :: 0 <= k < |BatchFrom(accounts, env, 0)| ==> Agrees(BatchFrom(accounts, env, 0)[k])
  {
    var b := BatchFrom(accounts, env, 0);
    BatchShape(accounts, env, 0);
    forall k | 0 <= k < |b|
      ensures Agrees(b[k])
    {
      AttemptAgrees(accounts[k], PreCheck(env, k), env.chain(accounts[k]), env.dryRun, env.now);
    }
  }

  /** One step of a batch. */
  lemma BatchStep(accounts: seq<string>, env: BatchEnv, i: nat)
    requires i < |accounts|
    ensures BatchFrom(accounts, env, i)
            == [AttemptAt(accounts, env, i)] + (if PostCheck(env, i).stopped then [] else BatchFrom(accounts, env, i + 1))
  {
  }

  /** The attempts so far followed by the rest of the batch, one attempt further on. */
  lemma BatchAdvance(accounts: seq<string>, env: BatchEnv, i: nat, done: seq<Attempt>)
    requires i < |accounts|
    ensures done + BatchFrom(accounts, env, i)
            == (done + [AttemptAt(accounts, env, i)]) + (if PostCheck(env, i).stopped then [] else BatchFrom(accounts, env, i + 1))
  {
    BatchStep(accounts, env, i);
  }

  /** Appending an attempt appends its result, its ledger record and its credited amount. */
  lemma AttemptsAppend(done: seq<Attempt>, a: Attempt, now: int, earlier: seq<Ledger.Record>)
    ensures ResultsOf(done + [a]) == ResultsOf(done) + [a.result]
    ensures earlier + EntryRecordsOf(done + [a], now)
            == (earlier + EntryRecordsOf(done, now)) + [Ledger.EntryRecord(Ledger.Stamp(a.entry, now))]
    ensures SuccessTotal(ResultsOf(done) + [a.result]) == SuccessTotal(ResultsOf(done)) + Credited(a.result)
  {
    assert (done + [a])[..|done|] == done;
    assert (ResultsOf(done) + [a.result])[..|done|] == ResultsOf(done);
    assert EntryRecordsOf(done + [a], now) == EntryRecordsOf(done, now) + [Ledger.EntryRecord(Ledger.Stamp(a.entry, now))];
  }

  /**
   * Logging one more agreeing attempt moves the metrics and the file exactly as far as one
   * more attempt in the batch does.
   */
  lemma LedgerAdvance(m: SystemMetrics, file: Option<seq<Ledger.FileLine>>, done: seq<Attempt>, a: Attempt, now: int)
    requires Agrees(a)
    ensures Ledger.AfterLog(BatchMetrics(m, done, now), a.entry) == BatchMetrics(m, done + [a], now)
    ensures Ledger.Appended(Ledger.AppendedAll(file, Ledger.JsonLines(EntryRecordsOf(done, now))),
                            Ledger.Json(Ledger.EntryRecord(Ledger.Stamp(a.entry, now))))
            == Ledger.AppendedAll(file, Ledger.JsonLines(EntryRecordsOf(done + [a], now)))
  {
    var rec := Ledger.EntryRecord(Ledger.Stamp(a.entry, now));
    AttemptsAppend(done, a, now, []);
    assert [] + EntryRecordsOf(done, now) == EntryRecordsOf(done, now);
    assert [] + EntryRecordsOf(done + [a], now) == EntryRecordsOf(done + [a], now);
    Ledger.LedgerFoldAppend(EntryRecordsOf(done, now), a.entry, now);
    AgreeingEntryCredits(a, BatchMetrics(m, done, now));
    var before := BatchMetrics(m, done, now);
    assert Ledger.AfterLog(before, a.entry).accountsReclaimed
           == before.accountsReclaimed + Ledger.AfterLog(Ledger.ZERO_METRICS, a.entry).accountsReclaimed;
    Ledger.AppendedRecord(file, EntryRecordsOf(done, now), rec);
  }

  // ---------------------------------------------------------------------------------------
  // The service

  /**
   * `reclaimAccount`: reads the stop file, then follows the node's answers; exactly one ledger
   * entry is written.
   */
  method ReclaimAccount(store: SafetyGate.FileStore, logger: Ledger.LoggerService, account: string,
                        chain: ReclaimChain, dryRun: bool, now: int) returns (result: ReclaimResult)
    modifies logger
    ensures var a := AttemptReclaim(account, SafetyGate.StopOrDefault(store.stopDoc), chain, dryRun, now);
      && result == a.result
      && logger.logs == old(logger.logs) + [Ledger.EntryRecord(Ledger.Stamp(a.entry, now))]
      && logger.logFile == Ledger.Appended(old(logger.logFile), Ledger.Json(Ledger.EntryRecord(Ledger.Stamp(a.entry, now))))
      && logger.metrics == Ledger.AfterLog(old(logger.metrics), a.entry)
  {
    var stop := store.LoadEmergencyStop();
    var attempt := AttemptReclaim(account, stop, chain, dryRun, now);
    logger.Log(attempt.entry, now);
    result := attempt.result;
  }

  /**
   * One pass of the batch loop: attempt account `i` (its own stop check is read `2i`), then
   * read the stop file again (read `2i + 1`) and report whether the batch must halt.
   */
  method ReclaimNext(store: SafetyGate.FileStore, logger: Ledger.LoggerService, accounts: seq<string>,
                     env: BatchEnv, i: nat) returns (result: ReclaimResult, halt: bool, ghost attempt: Attempt)
    requires i < |accounts|
    requires store.stopDoc == FileAfter(env.initial, env.external, 2 * i)
    modifies store, logger
    ensures attempt == AttemptAt(accounts, env, i) && result == attempt.result && halt == PostCheck(env, i).stopped
    ensures Agrees(attempt)
    ensures store.stopDoc == FileAfter(env.initial, env.external, 2 * (i + 1))
    ensures store.whitelistDoc == old(store.whitelistDoc)
    ensures logger.logs == old(logger.logs) + [Ledger.EntryRecord(Ledger.Stamp(attempt.entry, env.now))]
    ensures logger.logFile == Ledger.Appended(old(logger.logFile), Ledger.Json(Ledger.EntryRecord(Ledger.Stamp(attempt.entry, env.now))))
    ensures logger.metrics == Ledger.AfterLog(old(logger.metrics), attempt.entry)
  {
    store.Interfere(env.external(2 * i));
    assert store.stopDoc == FileAfter(env.initial, env.external, 2 * i + 1);
    attempt := AttemptAt(accounts, env, i);
    AttemptAgrees(accounts[i], PreCheck(env, i), env.chain(accounts[i]), env.dryRun, env.now);
    result := ReclaimAccount(store, logger, accounts[i], env.chain(accounts[i]), env.dryRun, env.now);
    store.Interfere(env.external(2 * i + 1));
    assert store.stopDoc == FileAfter(env.initial, env.external, 2 * i + 2);
    var stop := store.LoadEmergencyStop();
    halt := stop.stopped;
    assert 2 * (i + 1) == 2 * i + 2;
  }

  /**
   * One pass of the batch loop with its bookkeeping: the attempt joins those done, its result
   * joins the results and the running total, and its entry joins the ledger, the file and
   * the metrics.
   */
  method ReclaimStep(store: SafetyGate.FileStore, logger: Ledger.LoggerService, accounts: seq<string>, env: BatchEnv,
                     i: nat, results: seq<ReclaimResult>, total: int,
                     ghost all: seq<Attempt>, ghost done: seq<Attempt>, ghost logs0: seq<Ledger.Record>,
                     ghost file0: Option<seq<Ledger.FileLine>>, ghost metrics0: SystemMetrics)
    returns (results': seq<ReclaimResult>, total': int, halt: bool, ghost done': seq<Attempt>)
    requires i < |accounts| && |done| == i
    requires store.stopDoc == FileAfter(env.initial, env.external, 2 * i)
    requires all == done + BatchFrom(accounts, env, i)
    requires results == ResultsOf(done) && total == SuccessTotal(results)
    requires logger.logs == logs0 + EntryRecordsOf(done, env.now)
    requires logger.logFile == Ledger.AppendedAll(file0, Ledger.JsonLines(EntryRecordsOf(done, env.now)))
    requires logger.metrics == BatchMetrics(metrics0, done, env.now)
    modifies store, logger
    ensures |done'| == i + 1
    ensures store.stopDoc == FileAfter(env.initial, env.external, 2 * (i + 1))
    ensures store.whitelistDoc == old(store.whitelistDoc)
    ensures all == done' + (if halt then [] else BatchFrom(accounts, env, i + 1))
    ensures results' == ResultsOf(done') && total' == SuccessTotal(results')
    ensures logger.logs == logs0 + EntryRecordsOf(done', env.now)
    ensures logger.logFile == Ledger.AppendedAll(file0, Ledger.JsonLines(EntryRecordsOf(done', env.now)))
    ensures logger.metrics == BatchMetrics(metrics0, done', env.now)
  {
    var result;
    ghost var attempt;
    result, halt, attempt := ReclaimNext(store, logger, accounts, env, i);
    AttemptsAppend(done, attempt, env.now, logs0);
    LedgerAdvance(metrics0, file0, done, attempt, env.now);
    BatchAdvance(accounts, env, i, done);
    done' := done + [attempt];
    results' := results + [result];
    total' := total + Credited(result);
  }

  /**
   * `reclaimBatch`: the attempts `BatchFrom` describes, their ledger entries in order, in
   * memory and in the file, and the running total of successful amounts, which is also what
   * the entries add to the metrics' reclaimed total. The stop file is touched only by the
   * operator's interference, and the whitelist not at all.
   */
  method ReclaimBatch(store: SafetyGate.FileStore, logger: Ledger.LoggerService, accounts: seq<string>,
                      chain: string -> ReclaimChain, external: nat -> SafetyGate.Interference, dryRun: bool, now: int)
    returns (results: seq<ReclaimResult>, total: int)
    modifies store, logger
    ensures var attempts := BatchFrom(accounts, BatchEnv(chain, old(store.stopDoc), external, dryRun, now), 0);
      && results == ResultsOf(attempts)
      && logger.logs == old(logger.logs) + EntryRecordsOf(attempts, now)
      && logger.logFile == Ledger.AppendedAll(old(logger.logFile), Ledger.JsonLines(EntryRecordsOf(attempts, now)))
      && logger.metrics == BatchMetrics(old(logger.metrics), attempts, now)
      && store.stopDoc == FileAfter(old(store.stopDoc), external, 2 * |attempts|)
    ensures store.whitelistDoc == old(store.whitelistDoc)
    ensures total == SuccessTotal(results)
    ensures logger.metrics.totalReclaimed == old(logger.metrics.totalReclaimed) + total
  {
    var env := BatchEnv(chain, store.stopDoc, external, dryRun, now);
    ghost var all := BatchFrom(accounts, env, 0);
    ghost var done: seq<Attempt> := [];
    results := [];
    total := 0;
    var i := 0;
    while i < |accounts|
      invariant 0 <= i <= |accounts| && |done| == i
      invariant store.stopDoc == FileAfter(env.initial, env.external, 2 * i)
      invariant store.whitelistDoc == old(store.whitelistDoc)
      invariant all == done + BatchFrom(accounts, env, i)
      invariant results == ResultsOf(done) && total == SuccessTotal(results)
      invariant logger.logs == old(logger.logs) + EntryRecordsOf(done, now)
      invariant logger.logFile == Ledger.AppendedAll(old(logger.logFile), Ledger.JsonLines(EntryRecordsOf(done, now)))
      invariant logger.metrics == BatchMetrics(old(logger.metrics), done, now)
    {
      var halt;
      results, total, halt, done :=
        ReclaimStep(store, logger, accounts, env, i, results, total, all, done,
                    old(logger.logs), old(logger.logFile), old(logger.metrics));
      if halt {
        assert all == done + [];
        assert done == all;
        return;
      }
      i := i + 1;
    }
    assert all == done + [];
    assert done == all;
  }
}
