/**
 * The scheduled reclaim cycle of bot/src/scheduler.ts: check the emergency stop, scan, audit,
 * reclaim the eligible accounts, write a cycle summary and refresh the metrics. The pieces
 * shared with the `reclaim` command of bot/src/cli.ts live here as well.
 */
module Scheduler {
  import opened Wrappers
  import opened Types
  import SafetyGate
  import Ledger
  import Scanner
  import Auditor
  import Reclaimer

  /** `getOperatorKeypair()`: the operator's public key, or the error it throws. */
  datatype OperatorKey = KeyLoaded(pubkey: string) | KeyError(message: string)

  /** `accounts.map(a => ({ pubkey: a.pubkey, owner: a.owner }))`. */
  function CandidatesOf(accounts: seq<SponsoredAccount>): (candidates: seq<Auditor.Candidate>)
    ensures |candidates| == |accounts|
  {
    seq(|accounts|, k requires 0 <= k < |accounts| => Auditor.Candidate(accounts[k].pubkey, Some(accounts[k].owner)))
  }

  /**
   * `auditResults.filter(r => r.eligible).map(a => a.account)`: the eligible accounts, in
   * verdict order, and nothing else.
   */
  function EligibleAccounts(verdicts: seq<AuditResult>): (accounts: seq<string>)
    ensures |accounts| <= |verdicts|
    decreases |verdicts|
  {
    if verdicts == [] then []
    else
      var init := EligibleAccounts(verdicts[..|verdicts| - 1]);
      var last := verdicts[|verdicts| - 1];
      if last.eligible then init + [last.account] else init
  }

  /** One verdict contributes its account exactly when it is eligible. */
  lemma EligibleAccountsSingle(v: AuditResult)
    ensures EligibleAccounts([v]) == (if v.eligible then [v.account] else [])
  {
    assert [v][..0] == [];
  }

  /** The eligible accounts are a filter: splitting the verdicts splits the accounts, in order. */
  lemma {:induction false} EligibleAccountsFilter(front: seq<AuditResult>, back: seq<AuditResult>)
    ensures EligibleAccounts(front + back) == EligibleAccounts(front) + EligibleAccounts(back)
    decreases |back|
  {
    if back == [] {
      assert front + back == front;
    } else {
      var all := front + back;
      var init := back[..|back| - 1];
      assert all[..|all| - 1] == front + init;
      assert all[|all| - 1] == back[|back| - 1];
      EligibleAccountsFilter(front, init);
    }
  }

  /** An account is handed to the batch exactly when some verdict for it is eligible. */
  lemma {:induction false} EligibleAccountsMembers(verdicts: seq<AuditResult>, a: string)
    ensures a in EligibleAccounts(verdicts) <==> exists k :: 0 <= k < |verdicts| && verdicts[k].eligible && verdicts[k].account == a
    decreases |verdicts|
  {
    if verdicts != [] {
      var init := verdicts[..|verdicts| - 1];
      EligibleAccountsMembers(init, a);
      if exists k :: 0 <= k < |init| && init[k].eligible && init[k].account == a {
        var k :| 0 <= k < |init| && init[k].eligible && init[k].account == a;
        assert verdicts[k] == init[k];
      }
      if exists k :: 0 <= k < |verdicts| && verdicts[k].eligible && verdicts[k].account == a {
        var k :| 0 <= k < |verdicts| && verdicts[k].eligible && verdicts[k].account == a;
        if k < |init| {
          assert init[k] == verdicts[k];
        }
      }
    }
  }

  /** `results.filter(r => r.success).length`. */
  function CountSuccessful(results: seq<ReclaimResult>): (n: nat)
    ensures n <= |results|
    ensures n == 0 <==> forall k :: 0 <= k < |results| ==> !results[k].success
    decreases |results|
  {
    if results == [] then 0
    else CountSuccessful(results[..|results| - 1]) + (if results[|results| - 1].success then 1 else 0)
  }

  /** With nothing successful, nothing is credited. */
  lemma {:induction false} NoSuccessNoTotal(results: seq<ReclaimResult>)
    requires CountSuccessful(results) == 0
    ensures Reclaimer.SuccessTotal(results) == 0
    decreases |results|
  {
    if results != [] {
      NoSuccessNoTotal(results[..|results| - 1]);
    }
  }

  /** The successful results that reclaimed a non-zero amount. */
  function CountNonZero(results: seq<ReclaimResult>): (n: nat)
    ensures n <= CountSuccessful(results)
    decreases |results|
  {
    if results == [] then 0
    else
      var last := results[|results| - 1];
      CountNonZero(results[..|results| - 1]) + (if last.success && last.reclaimed != 0 then 1 else 0)
  }

  /**
   * The reclaims a batch's ledger records are its successes with a non-zero amount: never
   * more than its successes, and all of them when every success reclaimed something.
   */
  lemma {:induction false} LedgerReclaimsAreNonZeroSuccesses(attempts: seq<Reclaimer.Attempt>, now: int)
    requires forall k :: 0 <= k < |attempts| ==> Reclaimer.Agrees(attempts[k])
    ensures Ledger.ReclaimsInLedger(Reclaimer.EntryRecordsOf(attempts, now)) == CountNonZero(Reclaimer.ResultsOf(attempts))
    decreases |attempts|
  {
    if attempts != [] {
      var init := attempts[..|attempts| - 1];
      var a := attempts[|attempts| - 1];
      assert init + [a] == attempts;
      LedgerReclaimsAreNonZeroSuccesses(init, now);
      Reclaimer.AttemptsAppend(init, a, now, []);
      assert [] + Reclaimer.EntryRecordsOf(init, now) == Reclaimer.EntryRecordsOf(init, now);
      assert [] + Reclaimer.EntryRecordsOf(attempts, now) == Reclaimer.EntryRecordsOf(attempts, now);
      Ledger.LedgerFoldAppend(Reclaimer.EntryRecordsOf(init, now), a.entry, now);
      assert Reclaimer.ResultsOf(attempts)[..|attempts| - 1] == Reclaimer.ResultsOf(init);
    }
  }

  /** With every success reclaiming something, the non-zero successes are all the successes. */
  lemma {:induction false} NonZeroSuccessesAll(results: seq<ReclaimResult>)
    requires forall k :: 0 <= k < |results| && results[k].success ==> results[k].reclaimed != 0
    ensures CountNonZero(results) == CountSuccessful(results)
    decreases |results|
  {
    if results != [] {
      NonZeroSuccessesAll(results[..|results| - 1]);
    }
  }

  // ---------------------------------------------------------------------------------------
  // The reclaimable metric

  /** As written: `eligible.reduce((sum, a) => sum + a.balance, 0)`. */
  function ReclaimableAsWritten(verdicts: seq<AuditResult>): int
    decreases |verdicts|
  {
    if verdicts == [] then 0
    else
      var last := verdicts[|verdicts| - 1];
      ReclaimableAsWritten(verdicts[..|verdicts| - 1]) + (if last.eligible then last.balance else 0)
  }

  /** Over verdicts the auditor produced, the as-written sum is never positive. */
  lemma {:induction false} ReclaimableAsWrittenNeverPositive(doc: Option<WhitelistConfig>, candidates: seq<Auditor.Candidate>,
                                                             chain: string -> Auditor.ChainSnapshot, now: int, inactivityDays: int)
    ensures ReclaimableAsWritten(Auditor.VerdictsOf(doc, candidates, chain, now, inactivityDays)) <= 0
    decreases |candidates|
  {
    var vs := Auditor.VerdictsOf(doc, candidates, chain, now, inactivityDays);
    if candidates != [] {
      var init := candidates[..|candidates| - 1];
      ReclaimableAsWrittenNeverPositive(doc, init, chain, now, inactivityDays);
      assert vs[..|vs| - 1] == Auditor.VerdictsOf(doc, init, chain, now, inactivityDays);
      var c := candidates[|candidates| - 1];
      Auditor.EligibleVerdict(c.pubkey, Auditor.ListedIn(doc, c), chain(c.pubkey), now, inactivityDays);
    }
  }

  /** The lamports the audit saw in an account (0 when it did not find it). */
  function RentOf(snap: Auditor.ChainSnapshot): int {
    if snap.info.InfoFound? then snap.info.info.lamports else 0
  }

  /** The total of `RentOf` over a list of accounts. */
  function RentTotal(accounts: seq<string>, chain: string -> Auditor.ChainSnapshot): int
    decreases |accounts|
  {
    if accounts == [] then 0
    else RentTotal(accounts[..|accounts| - 1], chain) + RentOf(chain(accounts[|accounts| - 1]))
  }

  /** Corrected: the lamports held by the eligible accounts, which closing them returns. */
  function ReclaimableRent(verdicts: seq<AuditResult>, chain: string -> Auditor.ChainSnapshot): int {
    RentTotal(EligibleAccounts(verdicts), chain)
  }

  /**
   * An empty token account holding the rent-exempt minimum, never used and not whitelisted,
   * is eligible; the as-written metric reports 0 for it while the corrected one reports its
   * rent.
   */
  lemma ReclaimableAsWrittenMissesRent()
    ensures var snap := Auditor.ChainSnapshot(InfoFound(AccountInfo(2039280, "TokenkegQfeZyiNwAJbNbGKPFXCWuBvf9Ss623VQ5DA")),
                                              Auditor.TokenFound(Auditor.TokenAccount(0, None)), Auditor.NoSignatures);
      var chain := (a: string) => snap;
      var vs := Auditor.VerdictsOf(None, [Auditor.Candidate("Acct1", Some("Owner1"))], chain, 0, 30);
      && vs[0].eligible
      && ReclaimableAsWritten(vs) == 0
      && ReclaimableRent(vs, chain) == 2039280
  {
    var snap := Auditor.ChainSnapshot(InfoFound(AccountInfo(2039280, "TokenkegQfeZyiNwAJbNbGKPFXCWuBvf9Ss623VQ5DA")),
                                      Auditor.TokenFound(Auditor.TokenAccount(0, None)), Auditor.NoSignatures);
    var chain := (a: string) => snap;
    var c := Auditor.Candidate("Acct1", Some("Owner1"));
    var vs := Auditor.VerdictsOf(None, [c], chain, 0, 30);
    SafetyGate.DefaultsAreSafe("Acct1", Some("Owner1"));
    assert !Auditor.ListedIn(None, c);
    assert vs[0] == Auditor.Verdict("Acct1", false, snap, 0, 30);
    Auditor.AuditEligibility("Acct1", false, snap, 0, 30);
    assert vs[0].eligible;
    assert vs[0].balance == 0;
    assert vs[..0] == [];
    assert EligibleAccounts(vs) == ["Acct1"];
    assert ["Acct1"][..0] == [];
  }

  /** The credited total of results that each credit the rent of the matching account. */
  lemma {:induction false} CreditedIsRent(results: seq<ReclaimResult>, accounts: seq<string>, chain: string -> Auditor.ChainSnapshot)
    requires |results| == |accounts|
    requires forall k :: 0 <= k < |results| ==> Reclaimer.Credited(results[k]) == RentOf(chain(accounts[k]))
    ensures Reclaimer.SuccessTotal(results) == RentTotal(accounts, chain)
    decreases |results|
  {
    if results != [] {
      CreditedIsRent(results[..|results| - 1], accounts[..|accounts| - 1], chain);
    }
  }

  /**
   * A clean attempt: the account still holds what the audit saw, and the simulation (dry
   * run) or the submission (live) goes through.
   */
  predicate CleanAttempt(audited: Auditor.ChainSnapshot, chain: Reclaimer.ReclaimChain, dryRun: bool) {
    && audited.info.InfoFound?
    && chain.info == audited.info
    && (if dryRun then chain.simulation.SimulationOk? else chain.submit.Confirmed?)
  }

  /** A clean attempt with the stop off credits exactly the rent the audit saw. */
  lemma CleanAttemptCreditsRent(account: string, stop: EmergencyStopState, audited: Auditor.ChainSnapshot,
                                chain: Reclaimer.ReclaimChain, dryRun: bool, now: int)
    requires !stop.stopped && CleanAttempt(audited, chain, dryRun)
    ensures Reclaimer.Credited(Reclaimer.AttemptReclaim(account, stop, chain, dryRun, now).result) == RentOf(audited)
  {
    Reclaimer.SuccessCharacterized(account, stop, chain, dryRun, now);
  }

  /** With the stop off and untouched, result `k` of a batch is the plain attempt on account `k`. */
  lemma UnstoppedBatchResults(accounts: seq<string>, env: Reclaimer.BatchEnv)
    requires !SafetyGate.StopOrDefault(env.initial).stopped
    requires forall m :: env.external(m) == SafetyGate.Untouched
    ensures var results := Reclaimer.ResultsOf(Reclaimer.BatchFrom(accounts, env, 0));
      && |results| == |accounts|
      && forall k :: 0 <= k < |accounts| ==>
           results[k] == Reclaimer.AttemptReclaim(accounts[k], SafetyGate.StopOrDefault(env.initial),
                                                  env.chain(accounts[k]), env.dryRun, env.now).result
  {
    var b := Reclaimer.BatchFrom(accounts, env, 0);
    Reclaimer.NoStopAttemptsAll(accounts, env);
    Reclaimer.BatchShape(accounts, env, 0);
    forall k | 0 <= k < |accounts|
      ensures Reclaimer.ResultsOf(b)[k] == Reclaimer.AttemptReclaim(accounts[k], SafetyGate.StopOrDefault(env.initial),
                                                                    env.chain(accounts[k]), env.dryRun, env.now).result
    {
      Reclaimer.UntouchedFileStays(env.initial, env.external, 2 * k + 1);
      assert b[k] == Reclaimer.AttemptAt(accounts, env, k);
    }
  }

  /**
   * A clean batch reclaims exactly the rent the audit saw: with the stop off and untouched,
   * and every account attempted cleanly, the batch's total is the accounts' rent.
   */
  lemma CleanBatchReclaimsRent(accounts: seq<string>, auditChain: string -> Auditor.ChainSnapshot, env: Reclaimer.BatchEnv)
    requires !SafetyGate.StopOrDefault(env.initial).stopped
    requires forall m :: env.external(m) == SafetyGate.Untouched
    requires forall k :: 0 <= k < |accounts| ==> CleanAttempt(auditChain(accounts[k]), env.chain(accounts[k]), env.dryRun)
    ensures Reclaimer.SuccessTotal(Reclaimer.ResultsOf(Reclaimer.BatchFrom(accounts, env, 0))) == RentTotal(accounts, auditChain)
  {
    var results := Reclaimer.ResultsOf(Reclaimer.BatchFrom(accounts, env, 0));
    UnstoppedBatchResults(accounts, env);
    forall k | 0 <= k < |results|
      ensures Reclaimer.Credited(results[k]) == RentOf(auditChain(accounts[k]))
    {
      CleanAttemptCreditsRent(accounts[k], SafetyGate.StopOrDefault(env.initial), auditChain(accounts[k]),
                              env.chain(accounts[k]), env.dryRun, env.now);
    }
    CreditedIsRent(results, accounts, auditChain);
  }

  /**
   * The corrected metric is what a clean batch returns: with the stop off and untouched, and
   * every eligible account attempted cleanly, the batch over the eligible accounts reclaims
   * exactly `ReclaimableRent`.
   */
  lemma CleanBatchReclaimsReclaimableRent(verdicts: seq<AuditResult>, auditChain: string -> Auditor.ChainSnapshot,
                                          env: Reclaimer.BatchEnv)
    requires !SafetyGate.StopOrDefault(env.initial).stopped
    requires forall m :: env.external(m) == SafetyGate.Untouched
    requires forall a :: a in EligibleAccounts(verdicts) ==> CleanAttempt(auditChain(a), env.chain(a), env.dryRun)
    ensures Reclaimer.SuccessTotal(Reclaimer.ResultsOf(Reclaimer.BatchFrom(EligibleAccounts(verdicts), env, 0)))
            == ReclaimableRent(verdicts, auditChain)
  {
    var accounts := EligibleAccounts(verdicts);
    forall k | 0 <= k < |accounts|
      ensures CleanAttempt(auditChain(accounts[k]), env.chain(accounts[k]), env.dryRun)
    {
      assert accounts[k] in accounts;
    }
    CleanBatchReclaimsRent(accounts, auditChain, env);
  }

  // ---------------------------------------------------------------------------------------
  // The cycle

  /** What the scan and the audit produced. */
  datatype Survey =
    | SurveyFailed(message: string)
    | Surveyed(accounts: seq<SponsoredAccount>, transactions: nat, verdicts: seq<AuditResult>)

  /**
   * The scan by a fresh scanner for `operator` (with no extra identifiers), then one verdict
   * per account found against the whitelist document `doc`.
   */
  function SurveyOf(doc: Option<WhitelistConfig>, operator: string, rpc: Scanner.Rpc,
                    auditChain: string -> Auditor.ChainSnapshot, config: BotConfig, now: int): (survey: Survey)
    ensures survey.Surveyed? ==> |survey.verdicts| == |survey.accounts|
    ensures survey.Surveyed? ==> ReclaimableAsWritten(survey.verdicts) <= 0
  {
    var run := Scanner.ScanFrom(rpc, config.maxSignaturesPerRequest, operator, {}, None, 0);
    if run.failure.Some? then SurveyFailed(run.failure.value)
    else
      ReclaimableAsWrittenNeverPositive(doc, CandidatesOf(run.accounts), auditChain, now, config.inactivityDays);
      Surveyed(run.accounts, run.total, Auditor.VerdictsOf(doc, CandidatesOf(run.accounts), auditChain, now, config.inactivityDays))
  }

  /** The ledger records a survey writes: the scan's entry, then one entry per verdict. */
  function SurveyRecords(survey: Survey, now: int): seq<Ledger.Record>
    requires survey.Surveyed?
  {
    [Ledger.EntryRecord(Ledger.Stamp(Scanner.ScanEntry(survey.transactions, |survey.accounts|), now))]
    + Auditor.AuditRecords(survey.verdicts, now)
  }

  /** The scan's entry followed by the audit's entries are the survey's records, in the log and in the file. */
  lemma SurveyWritten(logs0: seq<Ledger.Record>, file0: Option<seq<Ledger.FileLine>>, survey: Survey, now: int,
                      logs1: seq<Ledger.Record>, file1: Option<seq<Ledger.FileLine>>,
                      logs: seq<Ledger.Record>, file: Option<seq<Ledger.FileLine>>)
    requires survey.Surveyed?
    requires var scanned := Ledger.EntryRecord(Ledger.Stamp(Scanner.ScanEntry(survey.transactions, |survey.accounts|), now));
      && logs1 == logs0 + [scanned] && file1 == Ledger.Appended(file0, Ledger.Json(scanned))
    requires logs == logs1 + Auditor.AuditRecords(survey.verdicts, now)
    requires file == Ledger.AppendedAll(file1, Ledger.JsonLines(Auditor.AuditRecords(survey.verdicts, now)))
    ensures logs == logs0 + SurveyRecords(survey, now)
    ensures file == Ledger.AppendedAll(file0, Ledger.JsonLines(SurveyRecords(survey, now)))
  {
    var scanned := Ledger.EntryRecord(Ledger.Stamp(Scanner.ScanEntry(survey.transactions, |survey.accounts|), now));
    Ledger.AppendedThenAll(file0, scanned, Auditor.AuditRecords(survey.verdicts, now));
  }

  /**
   * Steps 1 and 2, shared by the cycle and the `reclaim` command: scan, then audit what was
   * found. A failed scan writes nothing; a survey writes its records to the log and the file.
   */
  method ScanAndAudit(store: SafetyGate.FileStore, logger: Ledger.LoggerService, operator: string, rpc: Scanner.Rpc,
                      auditChain: string -> Auditor.ChainSnapshot, config: BotConfig, now: int)
    returns (survey: Survey)
    modifies logger
    ensures survey == SurveyOf(store.whitelistDoc, operator, rpc, auditChain, config, now)
    ensures logger.metrics == old(logger.metrics)
    ensures survey.SurveyFailed? ==> logger.logs == old(logger.logs) && logger.logFile == old(logger.logFile)
    ensures survey.Surveyed? ==>
              var records := SurveyRecords(survey, now);
              && logger.logs == old(logger.logs) + records
              && logger.logFile == Ledger.AppendedAll(old(logger.logFile), Ledger.JsonLines(records))
  {
    var monitor := new Scanner.MonitorService(operator);
    var scan := monitor.ScanWalletHistory(rpc, config.maxSignaturesPerRequest, logger, now);
    if scan.ScanFailed? {
      return SurveyFailed(scan.message);
    }
    ghost var logs1, file1 := logger.logs, logger.logFile;
    var verdicts := Auditor.AuditBatch(store, logger, CandidatesOf(scan.accounts), auditChain, now, config.inactivityDays);
    survey := Surveyed(scan.accounts, scan.total, verdicts);
    SurveyWritten(old(logger.logs), old(logger.logFile), survey, now, logs1, file1, logger.logs, logger.logFile);
  }

  datatype CycleOutcome =
    | Halted(reason: string)
    | CycleFailed(message: string)
    | NothingEligible(scanned: nat)
    | Completed(scanned: nat, eligible: nat, reclaimed: nat, totalAmount: int)

  /** The entry the cycle's catch block writes. */
  function CycleFailure(message: string): (e: Ledger.LogInput)
    ensures e.action == Reclaim && e.status == Failure && !Ledger.CountsAsReclaim(e)
  {
    Ledger.LogInput("N/A", Reclaim, Failure, None, Some("Cycle failed: " + message), None)
  }

  /** The log file's last line is `line`. */
  predicate EndsWith(file: Option<seq<Ledger.FileLine>>, line: Ledger.FileLine) {
    var lines := Ledger.LinesOf(file);
    lines != [] && lines[|lines| - 1] == line
  }

  /** The attempts of the batch over the eligible accounts among `verdicts`. */
  function CycleAttempts(verdicts: seq<AuditResult>, env: Reclaimer.BatchEnv): seq<Reclaimer.Attempt> {
    Reclaimer.BatchFrom(EligibleAccounts(verdicts), env, 0)
  }

  /**
   * How a cycle that audited `verdicts` ends: with nothing eligible, after the scan; otherwise
   * after the batch over the eligible accounts in `env`, counting its successes and their total.
   */
  function CycleResult(verdicts: seq<AuditResult>, env: Reclaimer.BatchEnv): CycleOutcome {
    var eligible := EligibleAccounts(verdicts);
    if eligible == [] then NothingEligible(|verdicts|)
    else
      var results := Reclaimer.ResultsOf(Reclaimer.BatchFrom(eligible, env, 0));
      Completed(|verdicts|, |eligible|, CountSuccessful(results), Reclaimer.SuccessTotal(results))
  }

  /** The summary line a cycle that got past the audit writes. */
  function SummaryLine(outcome: CycleOutcome, now: int): Ledger.FileLine
    requires outcome.NothingEligible? || outcome.Completed?
  {
    if outcome.Completed?
    then Ledger.Json(Ledger.SummaryRecord(Ledger.CycleSummary(now, outcome.scanned, outcome.eligible,
                                                              outcome.reclaimed, outcome.totalAmount)))
    else Ledger.Json(Ledger.SummaryRecord(Ledger.CycleSummary(now, outcome.scanned, 0, 0, 0)))
  }

  /**
   * The counts a summary reports are consistent: something eligible, no more than was
   * scanned; no more reclaimed than eligible; and nothing reclaimed means a zero total.
   */
  lemma CycleCounts(verdicts: seq<AuditResult>, env: Reclaimer.BatchEnv)
    ensures var o := CycleResult(verdicts, env);
      && (o.NothingEligible? || o.Completed?)
      && o.scanned == |verdicts|
      && (o.NothingEligible? <==> forall k :: 0 <= k < |verdicts| ==> !verdicts[k].eligible)
      && (o.Completed? ==> 0 < o.eligible <= o.scanned && o.reclaimed <= o.eligible
                           && (o.reclaimed == 0 ==> o.totalAmount == 0))
  {
    var eligible := EligibleAccounts(verdicts);
    if eligible == [] {
      forall k | 0 <= k < |verdicts|
        ensures !verdicts[k].eligible
      {
        EligibleAccountsMembers(verdicts, verdicts[k].account);
      }
    } else {
      EligibleAccountsMembers(verdicts, eligible[0]);
      Reclaimer.BatchShape(eligible, env, 0);
      var results := Reclaimer.ResultsOf(Reclaimer.BatchFrom(eligible, env, 0));
      if CountSuccessful(results) == 0 {
        NoSuccessNoTotal(results);
      }
    }
  }

  /**
   * The metrics after a completed cycle that scanned `scanned` accounts: the batch's entries
   * move the reclaimed total and the reclaim count, the refresh sets the reclaimable metric as
   * written, the number monitored and the scan time, and the rent locked is left alone.
   */
  function RefreshedMetrics(m: SystemMetrics, verdicts: seq<AuditResult>, scanned: nat,
                            attempts: seq<Reclaimer.Attempt>, now: int): SystemMetrics
  {
    SystemMetrics(m.totalRentLocked, ReclaimableAsWritten(verdicts), scanned,
                  m.totalReclaimed + Reclaimer.SuccessTotal(Reclaimer.ResultsOf(attempts)), Some(now),
                  m.accountsReclaimed + Ledger.ReclaimsInLedger(Reclaimer.EntryRecordsOf(attempts, now)))
  }

  /** The refreshed metrics are the batch's metrics with the cycle's update applied. */
  lemma RefreshIsUpdate(m: SystemMetrics, verdicts: seq<AuditResult>, attempts: seq<Reclaimer.Attempt>, now: int)
    ensures RefreshedMetrics(m, verdicts, |verdicts|, attempts, now)
            == Ledger.Updated(Reclaimer.BatchMetrics(m, attempts, now),
                              Ledger.MetricsUpdate(None, Some(ReclaimableAsWritten(verdicts)), Some(|verdicts|),
                                                   None, Some(Some(now)), None))
  {
  }

  /**
   * A completed cycle's ledger counts as reclaimed exactly its successes with a non-zero
   * amount, so the reclaim counter grows by no more than the summary's `reclaimed`.
   */
  lemma CycleReclaimsCounted(verdicts: seq<AuditResult>, env: Reclaimer.BatchEnv, now: int)
    ensures var o := CycleResult(verdicts, env);
      var attempts := CycleAttempts(verdicts, env);
      o.Completed? ==>
        && Ledger.ReclaimsInLedger(Reclaimer.EntryRecordsOf(attempts, now)) == CountNonZero(Reclaimer.ResultsOf(attempts))
        && CountNonZero(Reclaimer.ResultsOf(attempts)) <= o.reclaimed
  {
    var attempts := CycleAttempts(verdicts, env);
    Reclaimer.BatchAgrees(EligibleAccounts(verdicts), env);
    LedgerReclaimsAreNonZeroSuccesses(attempts, now);
  }

  /**
   * Step 3, shared by the cycle and the `reclaim` command: the batch over the eligible
   * accounts, then the summary of what it did. The log gains the batch's entries, the file
   * gains their lines and then the summary line, and the metrics move as the batch's entries
   * move them.
   */
  method ReclaimEligible(store: SafetyGate.FileStore, logger: Ledger.LoggerService, verdicts: seq<AuditResult>,
                         reclaimChain: string -> Reclaimer.ReclaimChain, external: nat -> SafetyGate.Interference,
                         config: BotConfig, now: int)
    returns (outcome: CycleOutcome)
    requires EligibleAccounts(verdicts) != []
    modifies store, logger
    ensures outcome == CycleResult(verdicts, Reclaimer.BatchEnv(reclaimChain, old(store.stopDoc), external, config.dryRun, now))
    ensures outcome.Completed?
    ensures var records := Reclaimer.EntryRecordsOf(
              CycleAttempts(verdicts, Reclaimer.BatchEnv(reclaimChain, old(store.stopDoc), external, config.dryRun, now)), now);
      && logger.logs == old(logger.logs) + records
      && logger.logFile == Ledger.Appended(Ledger.AppendedAll(old(logger.logFile), Ledger.JsonLines(records)),
                                           SummaryLine(outcome, now))
    ensures logger.metrics == Reclaimer.BatchMetrics(
              old(logger.metrics),
              CycleAttempts(verdicts, Reclaimer.BatchEnv(reclaimChain, old(store.stopDoc), external, config.dryRun, now)), now)
    ensures logger.metrics.totalReclaimed == old(logger.metrics.totalReclaimed) + outcome.totalAmount
    ensures store.whitelistDoc == old(store.whitelistDoc)
  {
    var eligible := EligibleAccounts(verdicts);
    var results, _ := Reclaimer.ReclaimBatch(store, logger, eligible, reclaimChain, external, config.dryRun, now);
    var successful := CountSuccessful(results);
    var totalAmount := Reclaimer.SuccessTotal(results);
    logger.LogReclaimCycle(|verdicts|, |eligible|, successful, totalAmount, now);
    return Completed(|verdicts|, |eligible|, successful, totalAmount);
  }

  /**
   * The rest of `runReclaimCycle` once the audit has produced `verdicts`: with nothing
   * eligible, a summary of zeros and nothing else; otherwise the batch, its summary, and the
   * metrics refresh, which stores the reclaimable metric as written.
   */
  method FinishCycle(store: SafetyGate.FileStore, logger: Ledger.LoggerService, verdicts: seq<AuditResult>,
                     reclaimChain: string -> Reclaimer.ReclaimChain, external: nat -> SafetyGate.Interference,
                     config: BotConfig, now: int)
    returns (outcome: CycleOutcome)
    modifies store, logger
    ensures outcome == CycleResult(verdicts, Reclaimer.BatchEnv(reclaimChain, old(store.stopDoc), external, config.dryRun, now))
    ensures EndsWith(logger.logFile, SummaryLine(outcome, now))
    ensures store.whitelistDoc == old(store.whitelistDoc)
    ensures outcome.NothingEligible? ==>
              && logger.logs == old(logger.logs) && logger.metrics == old(logger.metrics)
              && logger.logFile == Ledger.Appended(old(logger.logFile), SummaryLine(outcome, now))
              && store.stopDoc == old(store.stopDoc)
    ensures outcome.Completed? ==>
              var records := Reclaimer.EntryRecordsOf(
                CycleAttempts(verdicts, Reclaimer.BatchEnv(reclaimChain, old(store.stopDoc), external, config.dryRun, now)), now);
              && logger.logs == old(logger.logs) + records
              && logger.logFile == Ledger.Appended(Ledger.AppendedAll(old(logger.logFile), Ledger.JsonLines(records)),
                                                   SummaryLine(outcome, now))
              && logger.metrics
                 == RefreshedMetrics(old(logger.metrics), verdicts, |verdicts|,
                                     CycleAttempts(verdicts, Reclaimer.BatchEnv(reclaimChain, old(store.stopDoc), external,
                                                                                config.dryRun, now)), now)
  {
    if |EligibleAccounts(verdicts)| == 0 {
      logger.LogReclaimCycle(|verdicts|, 0, 0, 0, now);
      return NothingEligible(|verdicts|);
    }
    outcome := ReclaimEligible(store, logger, verdicts, reclaimChain, external, config, now);
    logger.UpdateMetrics(Ledger.MetricsUpdate(None, Some(ReclaimableAsWritten(verdicts)), Some(|verdicts|),
                                              None, Some(Some(now)), None));
    RefreshIsUpdate(old(logger.metrics), verdicts,
                    CycleAttempts(verdicts, Reclaimer.BatchEnv(reclaimChain, old(store.stopDoc), external, config.dryRun, now)), now);
  }

  /**
   * `runReclaimCycle`. A stop set when the cycle starts ends it before anything is written;
   * a failure to load the key or to scan writes one failure entry and nothing else; otherwise
   * the cycle ends as `CycleResult` says for the verdicts of `SurveyOf`, with its summary as
   * the file's last line. A completed cycle refreshes the metrics, and the reclaimable metric
   * it stores is never positive.
   */
  method RunReclaimCycle(store: SafetyGate.FileStore, logger: Ledger.LoggerService, key: OperatorKey, rpc: Scanner.Rpc,
                         auditChain: string -> Auditor.ChainSnapshot, reclaimChain: string -> Reclaimer.ReclaimChain,
                         external: nat -> SafetyGate.Interference, config: BotConfig, now: int)
    returns (outcome: CycleOutcome)
    modifies store, logger
    ensures SafetyGate.StopOrDefault(old(store.stopDoc)).stopped ==>
              && outcome == Halted(SafetyGate.StopOrDefault(old(store.stopDoc)).reason)
              && logger.logs == old(logger.logs) && logger.logFile == old(logger.logFile)
              && logger.metrics == old(logger.metrics)
    ensures !SafetyGate.StopOrDefault(old(store.stopDoc)).stopped && key.KeyError? ==>
              var failure := Ledger.EntryRecord(Ledger.Stamp(CycleFailure(key.message), now));
              && outcome == CycleFailed(key.message)
              && logger.logs == old(logger.logs) + [failure]
              && logger.logFile == Ledger.Appended(old(logger.logFile), Ledger.Json(failure))
              && logger.metrics == old(logger.metrics)
    ensures !SafetyGate.StopOrDefault(old(store.stopDoc)).stopped && key.KeyLoaded? ==>
              var survey := SurveyOf(old(store.whitelistDoc), key.pubkey, rpc, auditChain, config, now);
              && (survey.SurveyFailed? ==>
                    var failure := Ledger.EntryRecord(Ledger.Stamp(CycleFailure(survey.message), now));
                    && outcome == CycleFailed(survey.message)
                    && logger.logs == old(logger.logs) + [failure]
                    && logger.logFile == Ledger.Appended(old(logger.logFile), Ledger.Json(failure))
                    && logger.metrics == old(logger.metrics))
              && (survey.Surveyed? ==>
                    var env := Reclaimer.BatchEnv(reclaimChain, old(store.stopDoc), external, config.dryRun, now);
                    var records := SurveyRecords(survey, now);
                    && outcome == CycleResult(survey.verdicts, env)
                    && EndsWith(logger.logFile, SummaryLine(outcome, now))
                    && (outcome.NothingEligible? ==>
                          && logger.logs == old(logger.logs) + records
                          && logger.logFile == Ledger.Appended(Ledger.AppendedAll(old(logger.logFile), Ledger.JsonLines(records)),
                                                               SummaryLine(outcome, now))
                          && logger.metrics == old(logger.metrics))
                    && (outcome.Completed? ==>
                          var entries := Reclaimer.EntryRecordsOf(CycleAttempts(survey.verdicts, env), now);
                          && logger.logs == old(logger.logs) + records + entries
                          && logger.logFile
                             == Ledger.Appended(Ledger.AppendedAll(Ledger.AppendedAll(old(logger.logFile), Ledger.JsonLines(records)),
                                                                   Ledger.JsonLines(entries)),
                                                SummaryLine(outcome, now))
                          && logger.metrics
                             == RefreshedMetrics(old(logger.metrics), survey.verdicts, |survey.accounts|,
                                                 CycleAttempts(survey.verdicts, env), now)
                          && logger.metrics.reclaimable <= 0))
  {
    var stop := store.LoadEmergencyStop();
    if stop.stopped {
      return Halted(stop.reason);
    }
    if key.KeyError? {
      logger.Log(CycleFailure(key.message), now);
      return CycleFailed(key.message);
    }
    var survey := ScanAndAudit(store, logger, key.pubkey, rpc, auditChain, config, now);
    if survey.SurveyFailed? {
      logger.Log(CycleFailure(survey.message), now);
      return CycleFailed(survey.message);
    }
    outcome := FinishCycle(store, logger, survey.verdicts, reclaimChain, external, config, now);
  }
}
