# kora-recapture rent-reclaim bot, modelled in Dafny

The bot watches an operator wallet that pays rent for accounts it sponsors. It then closes
the sponsored accounts that are empty, idle and not protected, and takes the rent back. This
project models the bot's pipeline and proves properties of it:

- **Scanner.** `MonitorService` pages backwards through the wallet's signatures. It keeps
  the token `initializeAccount` instructions the operator paid for.
- **Auditor.** `AuditService` decides eligibility from a snapshot of the chain and the
  whitelist. It gives reasons for each verdict.
- **Reclaimer.** `ReclaimService` closes eligible accounts, either as a dry-run simulation
  or as a live transaction. It re-reads the emergency stop after every account.

Around them:

- **Safety gate.** The whitelist and the emergency-stop documents, each with a safe default.
- **Ledger.** The in-memory log and the metrics kept by `LoggerService`, plus the log file
  it appends to.
- **Scheduled cycle.** `runReclaimCycle` ties the stages together.
- **CLI.** The `whitelist` command and the `reclaim` command.
- **Helpers.** `daysSince`, `getATACloseAuthority` and `isATA`.

Every amount is an integer number of lamports, and every time an integer number of
milliseconds. The clock is a parameter `now`. Each call the bot makes to the Solana node is
a function-typed parameter that gives the node's answer:
- `Scanner.Rpc` answers the signature pages and the parsed transactions;
- `Auditor.ChainSnapshot` answers the account info, the token account and the newest
  signature;
- `Reclaimer.ReclaimChain` answers the account info, the simulation and the submission.

Writes the operator makes to the stop file during a batch are an `external` sequence of
interferences, one before each read the batch makes.

One file per module:

| file | module | models |
|---|---|---|
| wrappers.dfy | Wrappers | an `Option` type |
| strings.dfy | Strings | substring search, number formatting, `join` |
| types.dfy | Types | bot/src/types/index.ts |
| solana_utils.dfy | SolanaUtils | `daysSince` |
| ata_utils.dfy | AtaUtils | `getATACloseAuthority`, `isATA` |
| safety_gate.dfy | SafetyGate | bot/src/utils/validation.utils.ts, as a `FileStore` class holding both documents |
| ledger.dfy | Ledger | bot/src/services/logger.service.ts, as a `LoggerService` class |
| scanner.dfy | Scanner | bot/src/services/monitor.service.ts: specification functions and a `MonitorService` class |
| auditor.dfy | Auditor | bot/src/services/audit.service.ts |
| reclaimer.dfy | Reclaimer | bot/src/services/reclaim.service.ts |
| scheduler.dfy | Scheduler | `runReclaimCycle` in bot/src/scheduler.ts |
| cli.dfy | Cli | the `whitelist` and `reclaim` commands of bot/src/cli.ts |

## Model

| member | source | states |
|---|---|---|
| SolanaUtils.DaysSince | bot/src/utils/solana.utils.ts:67-71 | The result is the floor of the elapsed milliseconds over one day: `days * 86400000 <= now - t < (days + 1) * 86400000`. |
| SolanaUtils.FloorIsUnique | bot/src/utils/solana.utils.ts:67-71 | Any `d` that brackets the elapsed time that way is the day count. |
| SolanaUtils.DaysSinceNow | bot/src/utils/solana.utils.ts:67-71 | A timestamp equal to `now` is 0 days old. |
| SolanaUtils.DaysSinceWholeDays | bot/src/utils/solana.utils.ts:67-71 | A timestamp exactly `k` whole days back is `k` days old, for every natural `k`. |
| SolanaUtils.DaysSinceAntitone | bot/src/utils/solana.utils.ts:67-71 | A later timestamp never gives more days. |
| SolanaUtils.DaysSinceFuture | bot/src/utils/solana.utils.ts:70 | A future timestamp gives a negative count, because `Math.floor` floors rather than truncating. |
| SolanaUtils.DaysSinceAtLeast | bot/src/utils/solana.utils.ts:67-71 | `daysSince >= d` holds exactly when at least `d` whole days of milliseconds have elapsed, in both directions. |
| AtaUtils.CloseAuthority | bot/src/utils/ata.utils.ts:42-47 | The result is the close authority when its option is 1 and it is non-empty. It is the owner when the option is not 1, even if an authority is present. It is the owner when the authority is missing or empty. It is always one of the two. |
| AtaUtils.IsAta | bot/src/utils/ata.utils.ts:17-20 | True exactly when the account exists and its owner is the token program id. |
| SafetyGate.WhitelistOrEmpty | bot/src/utils/validation.utils.ts:8-16 | A readable document loads as itself. A missing or unreadable one loads as empty accounts, empty owners and an empty description. |
| SafetyGate.StopOrDefault | bot/src/utils/validation.utils.ts:54-62 | A readable stop document loads as itself. A missing or unreadable one loads as not stopped, no time and an empty reason. |
| SafetyGate.ListedWithoutOwner | bot/src/utils/validation.utils.ts:39-48 | With no owner, or an empty one, an account is whitelisted exactly when it is in `accounts`. |
| SafetyGate.ListedDependsOnlyOnAccounts | bot/src/utils/validation.utils.ts:39-48 | Without an owner, two whitelists with the same accounts give the same answer. |
| SafetyGate.Listed | bot/src/utils/validation.utils.ts:32-49 | The whitelist protects an account when it lists the account itself, or when the account has a non-empty owner that it lists. |
| SafetyGate.DefaultsAreSafe | bot/src/utils/validation.utils.ts:8-62 | The default whitelist protects nothing. The default stop is off and consistent. |
| SafetyGate.FileStore.constructor | bot/src/utils/validation.utils.ts:8-16 | The store starts with the given contents of the two files. |
| SafetyGate.FileStore.LoadWhitelist | bot/src/utils/validation.utils.ts:8-16 | Returns the stored whitelist, or the empty default when the file is missing. |
| SafetyGate.FileStore.SaveWhitelist | bot/src/utils/validation.utils.ts:21-27 | Replaces the whole whitelist document and leaves the stop document alone. |
| SafetyGate.FileStore.IsWhitelisted | bot/src/utils/validation.utils.ts:32-49 | True exactly when the account is in `accounts`, or the owner is given, non-empty and in `owners`. |
| SafetyGate.FileStore.LoadEmergencyStop | bot/src/utils/validation.utils.ts:54-62 | Returns the stored stop state, or the not-stopped default when the file is missing. |
| SafetyGate.FileStore.SaveEmergencyStop | bot/src/utils/validation.utils.ts:67-73 | Replaces the whole stop document and leaves the whitelist alone. |
| SafetyGate.FileStore.EnableEmergencyStop | bot/src/utils/validation.utils.ts:78-84 | A later load gives stopped, at `now`, with the reason. The invariant "a stop time is present exactly while stopped" holds. |
| SafetyGate.FileStore.DisableEmergencyStop | bot/src/utils/validation.utils.ts:89-95 | A later load gives not stopped, no time and an empty reason. The same invariant holds. |
| SafetyGate.SaveEnableDisableThenLoad | bot/src/utils/validation.utils.ts:21-95 | Save a whitelist, enable the stop, then disable it: the store holds exactly the saved whitelist and the not-stopped document. |
| Ledger.Stamp | bot/src/services/logger.service.ts:19-23 | The stored entry is the given fields plus the timestamp. |
| Ledger.Appended | bot/src/services/logger.service.ts:40-47 | Appending a line creates the file when it is missing and otherwise keeps every earlier line. |
| Ledger.AppendedAll | bot/src/services/logger.service.ts:40-47 | The file after one `appendFile` per line, in order. |
| Ledger.AppendedAllLines | bot/src/services/logger.service.ts:40-47 | Appending lines one by one leaves the old lines followed by the new ones. With no lines, the file is left as it was, missing or not. |
| Ledger.AppendedAllConcat | bot/src/services/logger.service.ts:40-47 | Two runs of appends equal one run of their concatenation. |
| Ledger.JsonLines | bot/src/services/logger.service.ts:42 | One line per record written. |
| Ledger.AppendedRecord | bot/src/services/logger.service.ts:40-47 | Writing one more record appends exactly its line. |
| Ledger.AppendedThenAll | bot/src/services/logger.service.ts:40-47 | Writing one record and then some more is writing them all in that order. |
| Ledger.AppendedRecordsReload | bot/src/services/logger.service.ts:40-112 | Reloading a file after records were appended gives its earlier records followed by exactly those records, in order. |
| Ledger.Parseable | bot/src/services/logger.service.ts:99-107 | Reloading never yields more records than the file has lines. |
| Ledger.ParseableAppend | bot/src/services/logger.service.ts:99-107 | Reloading a concatenation gives the concatenation of the reloads, so file order is kept. |
| Ledger.MalformedLinesDropped | bot/src/services/logger.service.ts:101-107 | Lines that do not parse contribute nothing. |
| Ledger.JsonLinesKept | bot/src/services/logger.service.ts:99-107 | A file of well-formed lines reloads to exactly their records, one per line, in order. |
| Ledger.AfterLog | bot/src/services/logger.service.ts:31-34 | A successful reclaim with a non-zero amount adds the amount to `totalReclaimed` and 1 to `accountsReclaimed`. Nothing else changes, and any other entry changes nothing. |
| Ledger.LedgerFoldAppend | bot/src/services/logger.service.ts:25-34 | Appending an entry moves the ledger's reclaimed sum and count exactly as `log` moves the metrics. |
| Ledger.Updated | bot/src/services/logger.service.ts:59-61 | `{ ...metrics, ...updates }`: each field takes the supplied value if there is one and otherwise keeps the old one. Its properties are the two lemmas below. |
| Ledger.UpdatedOverwritesOnlySupplied | bot/src/services/logger.service.ts:59-61 | For each of the six fields: a supplied value replaces the old one, and an absent one leaves the old one. |
| Ledger.UpdatedIdempotent | bot/src/services/logger.service.ts:59-61 | Applying the same update twice equals applying it once, and an empty update changes nothing. |
| Ledger.JsSliceFrom | bot/src/services/logger.service.ts:53 | `slice(start)` in JavaScript terms: a negative start counts from the end, clamped at 0, and a large start gives the empty tail. |
| Ledger.LoggerService.constructor | bot/src/services/logger.service.ts:6-14 | The logger starts with no entries and all metrics zero. |
| Ledger.LoggerService.Log | bot/src/services/logger.service.ts:19-35 | Appends exactly one stamped entry to the log and one line to the file, and moves the metrics as `AfterLog` says. The metrics minus the ledger's reclaimed sum and count stays fixed. A log that mirrors the file still does. |
| Ledger.LoggerService.GetLogs | bot/src/services/logger.service.ts:52-54 | For `limit >= 1`, the last `min(limit, |logs|)` entries in order. `limit == 0` gives every entry, as `slice(-0)` does. |
| Ledger.LoggerService.UpdateMetrics | bot/src/services/logger.service.ts:59-61 | The metrics become the old metrics overwritten by the supplied fields. The log and the file are unchanged. |
| Ledger.LoggerService.GetMetrics | bot/src/services/logger.service.ts:66-68 | Returns the current metrics. |
| Ledger.LoggerService.LogReclaimCycle | bot/src/services/logger.service.ts:73-90 | Appends one summary line to the file only, leaving the in-memory log and the metrics unchanged. A reload sees the summary after the earlier records. |
| Ledger.LoggerService.LoadLogsFromFile | bot/src/services/logger.service.ts:95-112 | The log becomes the parseable lines in file order, or empty when the file is missing. |
| Scanner.KoraVerdict | bot/src/services/monitor.service.ts:150-183 | Kora-sponsored exactly when any of these holds: an identifier program among the instructions; a parsed data string containing `KORA`; a fee payer among the identifiers; the operator paid the fee. |
| Scanner.KoraVerdictMonotone | bot/src/services/monitor.service.ts:150-192 | Adding identifiers never turns a sponsored verdict off. |
| Scanner.IsKoraSponsored | bot/src/services/monitor.service.ts:150-183 | The four tests in the source's order: a Kora program instruction, a Kora memo, a Kora fee payer, or the operator paying the fee. Its properties are `KoraVerdict` and `KoraVerdictMonotone`. |
| Scanner.ExtractionErrorPersists | bot/src/services/monitor.service.ts:102-144 | Once extraction throws on an instruction, the whole transaction yields nothing. |
| Scanner.ExtractedFromShape | bot/src/services/monitor.service.ts:115-141 | Each extracted account is an ATA with rent 0, created at the block time × 1000 (0 without one), carrying the transaction's Kora verdict. Accounts appear only when the operator is the fee payer. |
| Scanner.ExtractedAreKoraSponsored | bot/src/services/monitor.service.ts:127-183 | Every extracted account is marked Kora-sponsored. |
| Scanner.OthersPaidYieldsNothing | bot/src/services/monitor.service.ts:126-137 | A transaction paid by anyone but the operator yields no accounts. |
| Scanner.ExtractedFrom | bot/src/services/monitor.service.ts:115-141 | The loop over a transaction's instructions: each token `initializeAccount` instruction gives an account when the operator paid the fee. A missing fee payer throws, and the error persists. Its properties are the three lemmas above. |
| Scanner.Extract | bot/src/services/monitor.service.ts:102-144 | A transaction without metadata gives nothing. Otherwise the extraction runs over its instructions. |
| Scanner.PageAccountsAppend | bot/src/services/monitor.service.ts:53-69 | A page's accounts are the in-order concatenation of what each signature yields. |
| Scanner.FailedSignatureSkipped | bot/src/services/monitor.service.ts:53-69 | A signature whose fetch or extraction fails is skipped, and the rest of the page still counts. |
| Scanner.PageAccounts | bot/src/services/monitor.service.ts:53-69 | The accounts one page of signatures yields, in order, skipping signatures whose fetch or extraction fails. Its properties are the two lemmas above. |
| Scanner.ScanFrom | bot/src/services/monitor.service.ts:38-79 | The paging loop as a run: requests, cursors, pages, accounts, the signature total and a failure. Its properties are `ScanRequests` to `ShortHistoryTakesTwoRequests`. |
| Scanner.ScanEntry | bot/src/services/monitor.service.ts:84-89 | The scan's `N/A` `scan` success entry, which moves no metric. |
| Scanner.ScanRequests | bot/src/services/monitor.service.ts:38-50 | The first request uses the starting cursor, and each processed page is the non-empty answer to the request made with its cursor. |
| Scanner.ScanCursors | bot/src/services/monitor.service.ts:38-79 | Every processed page is non-empty, and every request after the first uses the last signature of the page before it. |
| Scanner.ScanTotals | bot/src/services/monitor.service.ts:52-72 | The final count is the starting count plus the page lengths, and the accounts are the pages' accounts in page order. |
| Scanner.ScanTrace | bot/src/services/monitor.service.ts:38-79 | The first request uses the starting cursor. Each processed page is the non-empty answer to its request. Each later cursor is the last signature of the page before. The total is the sum of page lengths, and the accounts are those of the pages in order. |
| Scanner.ScanShape | bot/src/services/monitor.service.ts:38-79 | There is one request per processed page, plus one more when the scan ended on an empty page or an error. |
| Scanner.ScanStops | bot/src/services/monitor.service.ts:38-79 | The scan ends only on a failed request (the error is reported), an empty page, or a count at or above 5000. |
| Scanner.ScanContinuesBelowCap | bot/src/services/monitor.service.ts:44-79 | After any page that leaves the count below 5000, another request follows, even when the page was short. |
| Scanner.ScanTotalBound | bot/src/services/monitor.service.ts:49-76 | When no page exceeds the limit, the total stays below 5000 plus one page. |
| Scanner.ShortHistoryTakesTwoRequests | bot/src/services/monitor.service.ts:38-72 | A history shorter than one page takes two requests: the page, then an empty page. |
| Scanner.CountsPartition | bot/src/services/monitor.service.ts:204-213 | The Kora and non-Kora counts add up to the number of accounts. |
| Scanner.GetKoraStatistics | bot/src/services/monitor.service.ts:197-217 | `koraSponsored + otherSponsored == totalAccounts == |accounts|`. |
| Scanner.MonitorService.constructor | bot/src/services/monitor.service.ts:13-24 | A service for one operator, with no identifiers. |
| Scanner.MonitorService.AddKoraIdentifier | bot/src/services/monitor.service.ts:189-192 | The identifier set gains exactly the given identifier. |
| Scanner.MonitorService.ExtractSponsoredAccounts | bot/src/services/monitor.service.ts:102-144 | The loop computes exactly `Extract` for the current identifiers. |
| Scanner.MonitorService.ProcessPage | bot/src/services/monitor.service.ts:53-69 | The per-signature loop yields exactly the page's accounts. |
| Scanner.MonitorService.ScanHistory | bot/src/services/monitor.service.ts:29-82 | The pagination loop yields exactly the outcome of `ScanFrom` from no cursor and a zero count. |
| Scanner.MonitorService.ScanWalletHistory | bot/src/services/monitor.service.ts:29-96 | The scan outcome is `OutcomeOf` the specified run. A failure writes nothing. A success appends exactly one `N/A` `scan` entry to the log, and its line to the file, and leaves the metrics unchanged. |
| Auditor.CheckInactivity | bot/src/services/audit.service.ts:139-165 | No signatures: inactive, with no timestamp. A failed lookup: not inactive. Otherwise the last activity is the block time × 1000 (0 without one), and the account is inactive exactly when that many days have elapsed. |
| Auditor.Verdict | bot/src/services/audit.service.ts:19-134 | `auditAccount` as a function of the whitelist answer and the node's answers: flags, balance, last activity and reasons in the source's order. Its properties are the lemmas below. |
| Auditor.ReclaimableOnChain | bot/src/services/audit.service.ts:19-134 | Eligibility from the chain's facts alone: the account exists and is not whitelisted, holds nothing, and has no signatures or a newest one at least the threshold old. |
| Auditor.AuditEligibility | bot/src/services/audit.service.ts:19-134 | Eligible exactly when all of these hold: the account exists and is not whitelisted; it holds nothing (no tokens, or no lamports when not a token account); it has no signatures, or its newest one is at least the threshold in whole days old. |
| Auditor.EligibleVerdict | bot/src/services/audit.service.ts:102-106 | Eligible exactly when `isEmpty && isInactive && isCloseable && isNotWhitelisted`. An eligible verdict has the single eligibility reason and a balance of at most 0. |
| Auditor.WhitelistedNeverEligible | bot/src/services/audit.service.ts:29-102 | A whitelisted account is never eligible. Its first reason is `Account is whitelisted`, unless the lookup failed. |
| Auditor.UnavailableAccountVerdicts | bot/src/services/audit.service.ts:37-133 | A missing account has every flag false except `isNotWhitelisted`, which follows the whitelist. Its balance is 0, its last activity null and its last reason `Account does not exist`. A failed lookup has all five flags false, balance 0 and the single reason `Error: …`. |
| Auditor.FundedTokenAccountKept | bot/src/services/audit.service.ts:54-91 | A token account with tokens is not empty, is closeable and is not eligible. Its balance is the token amount, with a balance reason. |
| Auditor.AuditEntry | bot/src/services/audit.service.ts:182-187 | One `audit` entry per verdict: status `success` exactly when eligible and `skipped` otherwise, with the reasons joined by `, `. |
| Auditor.AuditAccount | bot/src/services/audit.service.ts:19-134 | The verdict for the account, against the whitelist stored at the time of the call. |
| Auditor.VerdictsOf | bot/src/services/audit.service.ts:170-194 | One verdict per candidate. |
| Auditor.AuditBatch | bot/src/services/audit.service.ts:170-194 | One verdict per input, in input order. One ledger entry per verdict, in the same order, in memory and in the file. The metrics are unchanged. |
| Reclaimer.AttemptReclaim | bot/src/services/reclaim.service.ts:27-184 | `reclaimAccount` as a function of the stop it reads, the node's answers and the mode: the stop check, the lookup, then simulation or submission, with each failure's error text. Its properties are the lemmas below. |
| Reclaimer.SuccessCharacterized | bot/src/services/reclaim.service.ts:27-184 | A reclaim succeeds exactly when the stop is off, the account exists, and the simulation (dry run) or the submission (live) goes through. It then reports the account's lamports, with a signature only when live. A failure carries an error and no signature. |
| Reclaimer.StopBlocksReclaim | bot/src/services/reclaim.service.ts:31-51 | With the stop set, the result is the same whatever the node would answer. It is a failure with `Emergency stop is active: <reason>`, and its entry moves no metric. |
| Reclaimer.ModeIsolation | bot/src/services/reclaim.service.ts:90-163 | A dry run never depends on the submission, and a live run never on the simulation. |
| Reclaimer.AgreeingEntryCredits | bot/src/services/reclaim.service.ts:36-154 | Logging an attempt whose entry agrees with its result adds exactly the credited amount to `totalReclaimed`. |
| Reclaimer.AttemptAgrees | bot/src/services/reclaim.service.ts:36-173 | Every attempt's single `reclaim` entry has status `success` exactly when the result succeeds, and carries the result's amount when it counts. |
| Reclaimer.ResultsOf | bot/src/services/reclaim.service.ts:193-209 | One result per attempt. |
| Reclaimer.BatchFrom | bot/src/services/reclaim.service.ts:189-209 | `reclaimBatch` from account `i`: attempt it with the stop its own read sees, then go on unless the post-check reads the stop. |
| Reclaimer.BatchMetrics | bot/src/services/reclaim.service.ts:189-209 | The metrics after a batch's entries are logged: the batch's credited total and its ledger's reclaim count are added, and nothing else moves. |
| Reclaimer.BatchAgrees | bot/src/services/reclaim.service.ts:189-209 | Every attempt of a batch agrees with its ledger entry. |
| Reclaimer.BatchShape | bot/src/services/reclaim.service.ts:189-217 | The results are a non-empty prefix of the inputs, attempted in order, each with the stop state its own read sees. The batch goes on after every clear post-check and stops right after the first that sees the stop. |
| Reclaimer.UntouchedFileStays | bot/src/services/reclaim.service.ts:204-205 | Without outside writes, every read of the stop file sees its initial document. |
| Reclaimer.StopBeforeBatch | bot/src/services/reclaim.service.ts:31-208 | A stop active throughout gives exactly one result, a failure with the stop's reason. |
| Reclaimer.NoStopAttemptsAll | bot/src/services/reclaim.service.ts:193-209 | A stop never set gives one result per input, in order. |
| Reclaimer.StopDuringAttempt | bot/src/services/reclaim.service.ts:205-208 | A stop set while account `i` is in flight ends the batch with that account. |
| Reclaimer.LedgerAdvance | bot/src/services/reclaim.service.ts:195-208 | Logging one more agreeing attempt moves the metrics and the file exactly as far as one more attempt in the batch does. |
| Reclaimer.ReclaimAccount | bot/src/services/reclaim.service.ts:27-184 | The result, the one ledger entry, the file line and the metrics are those of the pure attempt, against the stop document the call reads. |
| Reclaimer.ReclaimNext | bot/src/services/reclaim.service.ts:193-208 | One loop step: the attempt at `i` and the post-check's verdict. The stop file advances by two reads and the whitelist is untouched. The attempt's entry is appended to the log and its line to the file, and the metrics move as `AfterLog` says. |
| Reclaimer.ReclaimStep | bot/src/services/reclaim.service.ts:195-208 | One pass with its bookkeeping: the attempt joins those done and the rest of the batch advances by one (or ends on a halt). Its result joins the results and the running total. The log, the file and the metrics stay those of the attempts done so far. |
| Reclaimer.ReclaimBatch | bot/src/services/reclaim.service.ts:189-217 | The results, the log entries, the file lines and the metrics are exactly those of the specified batch. The stop file has seen two reads per attempt, and the whitelist is unchanged. The returned total is the sum of the successful amounts, and `totalReclaimed` grows by that sum. |
| Scheduler.CandidatesOf | bot/src/scheduler.ts:36-38 | One candidate per scanned account. |
| Scheduler.EligibleAccounts | bot/src/scheduler.ts:40-58 | No more accounts than verdicts. |
| Scheduler.EligibleAccountsSingle | bot/src/scheduler.ts:40-58 | A verdict contributes its account exactly when it is eligible. |
| Scheduler.EligibleAccountsFilter | bot/src/scheduler.ts:40-58 | Splitting the verdicts splits the hand-off list, so the accounts keep audit order. |
| Scheduler.EligibleAccountsMembers | bot/src/scheduler.ts:40-58 | An account is handed to the batch exactly when some verdict for it is eligible. |
| Scheduler.CountSuccessful | bot/src/scheduler.ts:60 | At most one per result, and zero exactly when no result succeeded. |
| Scheduler.NoSuccessNoTotal | bot/src/scheduler.ts:60-61 | Without a success, the total is 0. |
| Scheduler.CountNonZero | bot/src/services/logger.service.ts:31-34 | The successes with a non-zero amount are never more than the successes. |
| Scheduler.LedgerReclaimsAreNonZeroSuccesses | bot/src/services/logger.service.ts:31-34 | The reclaims a batch's ledger counts are exactly its successes with a non-zero amount. |
| Scheduler.NonZeroSuccessesAll | bot/src/services/logger.service.ts:31-34 | When every success reclaimed something, those are all the successes. |
| Scheduler.ReclaimableAsWritten | bot/src/scheduler.ts:80 | As written: the sum of the `balance` of the eligible verdicts. This is the value the cycle stores. |
| Scheduler.ReclaimableAsWrittenNeverPositive | bot/src/scheduler.ts:80 | As written, the reclaimable metric over the auditor's verdicts is never positive. |
| Scheduler.ReclaimableAsWrittenMissesRent | bot/src/scheduler.ts:80 | For an eligible empty token account holding 2039280 lamports, the as-written metric is 0 and the corrected one is 2039280. |
| Scheduler.ReclaimableRent | bot/src/scheduler.ts:80 | Corrected: the rent the audit saw on the eligible accounts. |
| Scheduler.CreditedIsRent | bot/src/scheduler.ts:61-80 | Results that each credit their account's rent total the accounts' rent. |
| Scheduler.CleanAttemptCreditsRent | bot/src/services/reclaim.service.ts:78-163 | A clean attempt with the stop off credits exactly the lamports the audit saw. |
| Scheduler.UnstoppedBatchResults | bot/src/services/reclaim.service.ts:193-209 | With the emergency stop off and never set during the batch, the batch yields one result per account, in order, each the plain attempt on that account. |
| Scheduler.CleanBatchReclaimsRent | bot/src/services/reclaim.service.ts:193-209 | A batch whose every attempt is clean and unstopped returns, in total, exactly the rent the audit saw on those accounts. |
| Scheduler.CleanBatchReclaimsReclaimableRent | bot/src/scheduler.ts:56-82 | The corrected reclaimable metric is what a clean batch over the eligible accounts returns. |
| Scheduler.SurveyOf | bot/src/scheduler.ts:25-38 | A successful survey has one verdict per scanned account, and the as-written reclaimable metric over its verdicts is never positive. |
| Scheduler.SurveyRecords | bot/src/scheduler.ts:29-38 | A survey writes the scan's entry, then one audit entry per verdict. |
| Scheduler.SurveyWritten | bot/src/scheduler.ts:29-38 | The scan's entry followed by the audit's entries are the survey's records, in the log and in the file. |
| Scheduler.ScanAndAudit | bot/src/scheduler.ts:25-38 | The scan by a fresh scanner with no extra identifiers, then the audit, as `SurveyOf` specifies. The metrics are unchanged. A failed scan writes nothing. A survey writes exactly its records, to the log and to the file. |
| Scheduler.CycleFailure | bot/src/scheduler.ts:88-93 | The cycle's failure entry is a `reclaim` failure that moves no metric. |
| Scheduler.CycleAttempts | bot/src/scheduler.ts:54-58 | The batch runs over the eligible accounts, in verdict order. |
| Scheduler.CycleResult | bot/src/scheduler.ts:43-75 | Nothing eligible gives a zero summary. Otherwise the summary counts the scanned accounts, the eligible ones, the batch's successes and their total. Its properties are `CycleCounts`. |
| Scheduler.RefreshedMetrics | bot/src/scheduler.ts:56-82 | A completed cycle's metrics: the rent locked is untouched, the batch moves the reclaimed total and count, and the refresh sets the reclaimable metric as written, the number monitored and the scan time. |
| Scheduler.RefreshIsUpdate | bot/src/scheduler.ts:77-82 | Those metrics are the batch's metrics with the cycle's `updateMetrics` applied. |
| Scheduler.CycleCounts | bot/src/scheduler.ts:43-75 | A summary reports `scanned` as the number of verdicts. Nothing eligible exactly when no verdict is eligible; otherwise `0 < eligible <= scanned` and `reclaimed <= eligible`, and nothing reclaimed means a zero total. |
| Scheduler.CycleReclaimsCounted | bot/src/scheduler.ts:56-75 | A completed cycle's ledger counts as reclaimed exactly its successes with a non-zero amount, so the reclaim counter grows by no more than the summary's `reclaimed`. |
| Scheduler.ReclaimEligible | bot/src/scheduler.ts:56-75 | The batch over the eligible accounts, summarised by `CycleResult`. The log gains the batch's entries. The file gains their lines, then the summary line. The metrics are the batch's metrics, and the whitelist is unchanged. |
| Scheduler.FinishCycle | bot/src/scheduler.ts:43-82 | Nothing eligible: a zero summary line and nothing else changes. Otherwise the batch's entries and lines, then the summary line, and the metrics become `RefreshedMetrics`, which stores the reclaimable metric as written. |
| Scheduler.RunReclaimCycle | bot/src/scheduler.ts:10-95 | A stop active at the start returns before anything is written. A key or scan failure appends exactly one `N/A` `reclaim` failure entry and its line, and leaves the metrics unchanged. Otherwise the outcome is `CycleResult` of the surveyed verdicts. The log and the file hold the survey's records, then the batch's, then the summary. Nothing eligible leaves the metrics unchanged. A completed cycle stores `RefreshedMetrics`, whose reclaimable metric is never positive. |
| Cli.IndexOf | bot/src/cli.ts:222 | The first index holding the account, or -1 exactly when it is absent. |
| Cli.AddedTo | bot/src/cli.ts:213-220 | An absent account is appended at the end. A present one leaves the whitelist as it was. Owners and description are unchanged. |
| Cli.RemovedFrom | bot/src/cli.ts:221-229 | An absent account leaves the whitelist as it was. A present one shortens the list by one. Owners and description are unchanged. |
| Cli.AddTwiceAddsOnce | bot/src/cli.ts:214-220 | Adding twice equals adding once, and an added account occurs exactly once. |
| Cli.RemoveDropsFirstOccurrence | bot/src/cli.ts:222-226 | Removal deletes exactly the first occurrence and keeps the rest in order. As a multiset, the list loses one copy. |
| Cli.RemoveUndoesAdd | bot/src/cli.ts:213-226 | Removing what was just added to a list without it restores the list. |
| Cli.WhitelistEditsAndTheGate | bot/src/cli.ts:213-226 | After an add, the account is whitelisted and every other account keeps its standing. After removing a single occurrence, only the owner can still protect it. |
| Cli.WhitelistCommand | bot/src/cli.ts:209-237 | `--add` wins over `--remove`. A change saves the whole document and no change saves nothing. With neither option, it lists the accounts. The stop file is untouched. |
| Cli.ReclaimCommand | bot/src/cli.ts:55-111 | The same survey and batch as the cycle, with no stop check first. A failure exits 1 and writes nothing. Nothing eligible exits 0 after the survey's records, with no summary line and no metric change. A completed run writes the batch's entries and its summary, and the metrics are the batch's metrics. |

## Left out

- Solana SDK calls are function-typed inputs:
  - `getSignaturesForAddress`, `getParsedTransaction`, `getAccountInfo` and `getAccount`;
  - `simulateTransaction` and `sendAndConfirmTransaction`;
  - `PublicKey` parsing and transaction building.

  An unparsable address shows up as an account-info error.
- Both `getAccount` calls in `auditAccount` see one snapshot of the node.
- `Date.now()` is a parameter `now`, one value for every clock reading of a call.
- Amounts are integer lamports. `lamportsToSol`, `.toFixed` and the SOL sums of `getKoraStatistics` are floating point and are left out.
- Scanner.GetKoraStatistics: models the counts only.
- Console output, `process.exit`, `requestDelayMs` sleeps, cron scheduling and the other CLI commands are left out.
- `JSON.stringify`/`JSON.parse` are abstract: a file line is a record or a malformed line.
- A cycle summary is kept as its own record kind when the file is reloaded.
- A failed append to the log file is not modelled. `writeLog` swallows it, and a failing `logReclaimCycle` or `saveWhitelist` would throw.
- Ledger.LoggerService.GetLogs: takes `limit` as a required argument. The source's default of 100 applies only to callers that omit it, and its one caller is the HTTP API, which is not part of this model.
- Scheduler.RunReclaimCycle: stands for an error by its message text. `${error}` in the source prints the error object's string form.
- Scheduler.RunReclaimCycle: the cycle's scanner has no Kora identifiers, as in the source. Identifiers added elsewhere do not reach it.
- Reclaimer.ReclaimAccount: the amount of a catch-path failure is 0, as in the source, and its ledger entry has no `sol`.
- Concurrent runs of the scheduler, the HTTP API and the CLI on the same files are left out. Operator writes to the stop file during a batch are modelled as `external`.
- The HTTP server, the web dashboard, the Discord alerts, configuration loading and key conversion are not part of this model.

## Findings

| source | as written | input that shows it | evidently intended | confidence | as-written member | corrected member |
|---|---|---|---|---|---|---|
| bot/src/scheduler.ts:80 | `reclaimableSol` sums the `balance` of the eligible audit results. Eligibility requires an empty account, so every such balance is 0 (or at most 0). The cycle stores this value. | One empty token account holding 2039280 lamports, never used and not whitelisted: it is eligible, and the metric reports 0. | The rent the eligible accounts hold, which is what closing them returns. | high, not executed | Scheduler.ReclaimableAsWrittenMissesRent | Scheduler.CleanBatchReclaimsReclaimableRent |
