/**
 * The auditor of bot/src/services/audit.service.ts. Each account is judged on four flags:
 * empty, inactive, closeable and not whitelisted, and is eligible exactly when all four hold.
 * What the RPC node reports about the account is one `ChainSnapshot`.
 */
module Auditor {
  import opened Wrappers
  import opened Types
  import opened Strings
  import SolanaUtils
  import SafetyGate
  import Ledger

  /** The token-account fields the auditor reads (`getAccount`). */
  datatype TokenAccount = TokenAccount(amount: nat, closeAuthority: Option<string>)

  /** `getAccount` either decodes a token account or throws (not a token account). */
  datatype TokenLookup = TokenFound(account: TokenAccount) | NotTokenAccount

  /** `getSignaturesForAddress(limit 1)`: none, the newest one's block time, or a thrown error. */
  datatype LatestSignature = NoSignatures | Latest(blockTime: Option<int>) | SignatureLookupError

  /**
   * The node's answers about one account. `info` is `InfoError` when the key does not parse or
   * `getAccountInfo` throws; both `getAccount` calls see the same `token`.
   */
  datatype ChainSnapshot = ChainSnapshot(info: InfoLookup, token: TokenLookup, latest: LatestSignature)

  datatype Inactivity = Inactivity(isInactive: bool, lastActivity: Option<int>)

  const WHITELISTED_REASON: string := "Account is whitelisted"
  const MISSING_REASON: string := "Account does not exist"
  const NOT_CLOSEABLE_REASON: string := "Account cannot be closed by operator"
  const ELIGIBLE_REASON: string := "\U{2705} Eligible for reclaim"

  function BalanceReason(balance: nat): string {
    "Account has balance: " + NatToString(balance)
  }

  function ActivityReason(days: int, threshold: int): string {
    "Account active " + IntToString(days) + " days ago (threshold: " + IntToString(threshold) + ")"
  }

  function ErrorReason(message: string): string {
    "Error: " + message
  }

  /**
   * `checkInactivity`: no signatures is inactive with no timestamp; otherwise the newest block
   * time (0 when missing) in milliseconds decides; a failed lookup is active.
   */
  function CheckInactivity(latest: LatestSignature, now: int, inactivityDays: int): (r: Inactivity)
    ensures latest.NoSignatures? ==> r == Inactivity(true, None)
    ensures latest.SignatureLookupError? ==> r == Inactivity(false, None)
    ensures latest.Latest? ==>
              r.lastActivity == Some(latest.blockTime.GetOr(0) * 1000)
              && (r.isInactive <==> now - r.lastActivity.value >= inactivityDays * SolanaUtils.MS_PER_DAY)
  {
    match latest
    case NoSignatures => Inactivity(true, None)
    case SignatureLookupError => Inactivity(false, None)
    case Latest(blockTime) =>
      var t := blockTime.GetOr(0) * 1000;
      SolanaUtils.DaysSinceAtLeast(now, t, inactivityDays);
      Inactivity(SolanaUtils.DaysSince(now, t) >= inactivityDays, Some(t))
  }

  /** The emptiness test and the balance reported: token amount, else lamports. */
  function Balance(snap: ChainSnapshot): int
    requires snap.info.InfoFound?
  {
    match snap.token
    case TokenFound(t) => t.amount
    case NotTokenAccount => snap.info.info.lamports
  }

  function IsEmpty(snap: ChainSnapshot): bool
    requires snap.info.InfoFound?
  {
    match snap.token
    case TokenFound(t) => t.amount == 0
    case NotTokenAccount => snap.info.info.lamports <= 0
  }

  /** A token account is closeable whatever its close authority; any other account only when empty. */
  function IsCloseable(snap: ChainSnapshot): bool
    requires snap.info.InfoFound?
  {
    match snap.token
    case TokenFound(_) => true
    case NotTokenAccount => IsEmpty(snap)
  }

  /**
   * `auditAccount` for an account the whitelist does (`listed`) or does not hold, and the node's answers `snap` at time `now`, with
   * reasons in the order the source pushes them.
   */
  function Verdict(account: string, listed: bool, snap: ChainSnapshot, now: int, inactivityDays: int): AuditResult
  {
    var head := if listed then [WHITELISTED_REASON] else [];
    match snap.info
    case InfoError(message) =>
      AuditResult(account, false, false, false, false, false, None, 0, [ErrorReason(message)])
    case InfoAbsent =>
      AuditResult(account, false, false, false, false, !listed, None, 0, head + [MISSING_REASON])
    case InfoFound(_) =>
      var isEmpty := IsEmpty(snap);
      var balanceReasons := if snap.token.TokenFound? && !isEmpty then [BalanceReason(snap.token.account.amount)] else [];
      var activity := CheckInactivity(snap.latest, now, inactivityDays);
      var activityReasons :=
        if !activity.isInactive && activity.lastActivity.Some? && activity.lastActivity.value != 0
        then [ActivityReason(SolanaUtils.DaysSince(now, activity.lastActivity.value), inactivityDays)]
        else [];
      var isCloseable := IsCloseable(snap);
      var closeReasons := if !isCloseable then [NOT_CLOSEABLE_REASON] else [];
      var eligible := isEmpty && activity.isInactive && isCloseable && !listed;
      var eligibleReasons := if eligible then [ELIGIBLE_REASON] else [];
      AuditResult(account, eligible, isEmpty, activity.isInactive, isCloseable, !listed,
                  activity.lastActivity, Balance(snap),
                  head + balanceReasons + activityReasons + closeReasons + eligibleReasons)
  }

  /**
   * Eligibility from first principles: the account exists, is not on the whitelist, holds
   * nothing (no tokens, or no lamports when it is not a token account), and either has no
   * signatures or its newest one is at least the threshold in whole days old.
   */
  ghost predicate ReclaimableOnChain(listed: bool, snap: ChainSnapshot, now: int, inactivityDays: int)
  {
    && snap.info.InfoFound?
    && !listed
    && (match snap.token
        case TokenFound(t) => t.amount == 0
        case NotTokenAccount => snap.info.info.lamports <= 0)
    && (match snap.latest
        case NoSignatures => true
        case Latest(blockTime) => now - blockTime.GetOr(0) * 1000 >= inactivityDays * SolanaUtils.MS_PER_DAY
        case SignatureLookupError => false)
  }

  /** The verdict is eligible exactly when the account is reclaimable on chain. */
  lemma AuditEligibility(account: string, listed: bool, snap: ChainSnapshot, now: int, inactivityDays: int)
    ensures Verdict(account, listed, snap, now, inactivityDays).eligible
            <==> ReclaimableOnChain(listed, snap, now, inactivityDays)
  {
    if snap.info.InfoFound? && snap.latest.Latest? {
      var t := snap.latest.blockTime.GetOr(0) * 1000;
      SolanaUtils.DaysSinceAtLeast(now, t, inactivityDays);
    }
  }

  /** Eligible means all four flags, and an eligible verdict carries the single eligibility reason. */
  lemma EligibleVerdict(account: string, listed: bool, snap: ChainSnapshot, now: int, inactivityDays: int)
    ensures var r := Verdict(account, listed, snap, now, inactivityDays);
      && r.account == account
      && (r.eligible <==> r.isEmpty && r.isInactive && r.isCloseable && r.isNotWhitelisted)
      && (r.eligible ==> r.reasons == [ELIGIBLE_REASON] && r.balance <= 0)
  {
  }

  /** The whitelist overrides everything: a listed account is never eligible and says why first. */
  lemma WhitelistedNeverEligible(account: string, listed: bool, snap: ChainSnapshot, now: int, inactivityDays: int)
    requires listed
    ensures var r := Verdict(account, listed, snap, now, inactivityDays);
      !r.eligible && r.reasons != [] && r.reasons[0] == (if snap.info.InfoError? then ErrorReason(snap.info.message) else WHITELISTED_REASON)
  {
  }

  /**
   * A missing account and a failed lookup are never eligible; the failure reports no flags at
   * all and its one reason, while the missing account keeps its whitelist flag.
   */
  lemma UnavailableAccountVerdicts(account: string, listed: bool, snap: ChainSnapshot, now: int, inactivityDays: int)
    ensures var r := Verdict(account, listed, snap, now, inactivityDays);
      && (snap.info.InfoAbsent? ==>
            !r.eligible && r.balance == 0 && r.lastActivity.None?
            && (r.isNotWhitelisted <==> !listed)
            && r.reasons[|r.reasons| - 1] == MISSING_REASON)
      && (snap.info.InfoError? ==>
            r == AuditResult(account, false, false, false, false, false, None, 0, [ErrorReason(snap.info.message)]))
  {
  }

  /** A token account with a balance is reported with that balance and is never eligible. */
  lemma FundedTokenAccountKept(account: string, listed: bool, snap: ChainSnapshot, now: int, inactivityDays: int)
    requires snap.info.InfoFound? && snap.token.TokenFound? && snap.token.account.amount > 0
    ensures var r := Verdict(account, listed, snap, now, inactivityDays);
      !r.eligible && !r.isEmpty && r.isCloseable && r.balance == snap.token.account.amount
      && BalanceReason(snap.token.account.amount) in r.reasons
  {
  }

  /** The ledger entry `auditBatch` writes for one verdict. */
  function AuditEntry(r: AuditResult): (e: Ledger.LogInput)
    ensures e.account == r.account && e.action == Audit && e.sol.None? && e.signature.None?
    ensures e.status == Success <==> r.eligible
    ensures e.status == Skipped <==> !r.eligible
    ensures e.reason == Some(Join(r.reasons, ", "))
  {
    Ledger.LogInput(r.account, Audit, if r.eligible then Success else Skipped, None, Some(Join(r.reasons, ", ")), None)
  }

  /** The account to audit and its optional owner. */
  datatype Candidate = Candidate(pubkey: string, owner: Option<string>)

  /** What `isWhitelisted` answers for a candidate against the stored whitelist document. */
  predicate ListedIn(doc: Option<WhitelistConfig>, candidate: Candidate) {
    SafetyGate.Listed(SafetyGate.WhitelistOrEmpty(doc), candidate.pubkey, candidate.owner)
  }

  /** `auditAccount`: the whitelist is read from the store at the time of the call. */
  method AuditAccount(store: SafetyGate.FileStore, candidate: Candidate, snap: ChainSnapshot,
                      now: int, inactivityDays: int) returns (r: AuditResult)
    ensures r == Verdict(candidate.pubkey, ListedIn(store.whitelistDoc, candidate), snap, now, inactivityDays)
  {
    var listed := store.IsWhitelisted(candidate.pubkey, candidate.owner);
    r := Verdict(candidate.pubkey, listed, snap, now, inactivityDays);
  }

  function AuditRecords(results: seq<AuditResult>, now: int): seq<Ledger.Record> {
    if results == [] then []
    else AuditRecords(results[..|results| - 1], now) + [Ledger.EntryRecord(Ledger.Stamp(AuditEntry(results[|results| - 1]), now))]
  }

  /** The verdicts `auditBatch` returns: one per candidate, in order. */
  function VerdictsOf(doc: Option<WhitelistConfig>, candidates: seq<Candidate>, chain: string -> ChainSnapshot,
                      now: int, inactivityDays: int): (verdicts: seq<AuditResult>)
    ensures |verdicts| == |candidates|
  {
    seq(|candidates|, k requires 0 <= k < |candidates| =>
      Verdict(candidates[k].pubkey, ListedIn(doc, candidates[k]), chain(candidates[k].pubkey), now, inactivityDays))
  }

  /**
   * `auditBatch`: one verdict per candidate, in order, each followed by its ledger entry.
   * `chain` gives the node's answers per account.
   */
  method AuditBatch(store: SafetyGate.FileStore, logger: Ledger.LoggerService, candidates: seq<Candidate>,
                    chain: string -> ChainSnapshot, now: int, inactivityDays: int)
    returns (results: seq<AuditResult>)
    modifies logger
    ensures results == VerdictsOf(store.whitelistDoc, candidates, chain, now, inactivityDays)
    ensures logger.logs == old(logger.logs) + AuditRecords(results, now)
    ensures logger.logFile == Ledger.AppendedAll(old(logger.logFile), Ledger.JsonLines(AuditRecords(results, now)))
    ensures logger.metrics == old(logger.metrics)
  {
    results := [];
    for i := 0 to |candidates|
      invariant results == VerdictsOf(store.whitelistDoc, candidates, chain, now, inactivityDays)[..i]
      invariant logger.logs == old(logger.logs) + AuditRecords(results, now)
      invariant logger.logFile == Ledger.AppendedAll(old(logger.logFile), Ledger.JsonLines(AuditRecords(results, now)))
      invariant logger.metrics == old(logger.metrics)
    {
      var r := AuditAccount(store, candidates[i], chain(candidates[i].pubkey), now, inactivityDays);
      Ledger.AppendedRecord(old(logger.logFile), AuditRecords(results, now), Ledger.EntryRecord(Ledger.Stamp(AuditEntry(r), now)));
      results := results + [r];
      assert results[..|results| - 1] == results[..i];
      logger.Log(AuditEntry(r), now);
    }
  }
}
