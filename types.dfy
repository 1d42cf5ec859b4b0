/**
 * The records the bot passes between its stages and persists (bot/src/types/index.ts).
 * Every amount is an integer number of lamports and every time an integer number of
 * milliseconds since the epoch.
 */
module Types {
  import opened Wrappers

  /** The kind of a sponsored account: `'ATA' | 'SystemAccount' | 'PDA'`. */
  datatype AccountType = Ata | SystemAccount | Pda

  /** An account the operator paid to create, as the scanner reports it. */
  datatype SponsoredAccount = SponsoredAccount(
    pubkey: string,
    kind: AccountType,
    createdAt: int,
    rentLamports: int,
    owner: string,
    mint: Option<string>,
    koraSponsored: Option<bool>)

  /** The auditor's verdict on one account, with the four flags it is built from. */
  datatype AuditResult = AuditResult(
    account: string,
    eligible: bool,
    isEmpty: bool,
    isInactive: bool,
    isCloseable: bool,
    isNotWhitelisted: bool,
    lastActivity: Option<int>,
    balance: int,
    reasons: seq<string>)

  /** The outcome of one reclaim attempt; `reclaimed` is in lamports. */
  datatype ReclaimResult = ReclaimResult(
    account: string,
    success: bool,
    signature: Option<string>,
    reclaimed: int,
    dryRun: bool,
    timestamp: int,
    error: Option<string>)

  /** The persisted whitelist document. */
  datatype WhitelistConfig = WhitelistConfig(
    accounts: seq<string>,
    owners: seq<string>,
    description: string)

  /** The persisted emergency-stop document. */
  datatype EmergencyStopState = EmergencyStopState(
    stopped: bool,
    stoppedAt: Option<int>,
    reason: string)

  /** The in-memory metrics snapshot. */
  datatype SystemMetrics = SystemMetrics(
    totalRentLocked: int,
    reclaimable: int,
    accountsMonitored: int,
    totalReclaimed: int,
    lastScanTime: Option<int>,
    accountsReclaimed: int)

  datatype Action = Scan | Audit | Reclaim | Skip

  datatype Status = Success | Failure | Skipped

  /** One ledger entry; `sol` carries an amount in lamports. */
  datatype LogEntry = LogEntry(
    timestamp: int,
    account: string,
    action: Action,
    status: Status,
    sol: Option<int>,
    reason: Option<string>,
    signature: Option<string>)

  /** The configuration values the core reads (bot/src/config/index.ts supplies them). */
  datatype BotConfig = BotConfig(
    dryRun: bool,
    inactivityDays: int,
    maxSignaturesPerRequest: nat)

  /** What `getAccountInfo` gives for an address: the account, nothing, or a thrown error. */
  datatype AccountInfo = AccountInfo(lamports: int, owner: string)

  datatype InfoLookup = InfoFound(info: AccountInfo) | InfoAbsent | InfoError(message: string)
}
