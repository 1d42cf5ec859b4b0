/**
 * The `whitelist` and `reclaim` commands of bot/src/cli.ts. The whitelist command edits the
 * stored whitelist one account at a time; the reclaim command runs scan, audit and reclaim
 * once, without the cycle's stop check up front and without touching the metrics.
 */
module Cli {
  import opened Wrappers
  import opened Types
  import SafetyGate
  import Ledger
  import Auditor
  import Reclaimer
  import Scanner
  import Scheduler

  /** `Array.prototype.indexOf`: the index of the first occurrence of `x`, or -1. */
  function IndexOf(s: seq<string>, x: string): (i: int)
    ensures -1 <= i < |s|
    ensures i == -1 <==> x !in s
    ensures 0 <= i ==> s[i] == x && x !in s[..i]
  {
    if s == [] then -1
    else if s[0] == x then 0
    else
      var j := IndexOf(s[1..], x);
      if j == -1 then -1
      else
        assert s[..j + 1] == [s[0]] + s[1..][..j];
        j + 1
  }

  /** The whitelist after `--add account`: appended at the end unless already present. */
  function AddedTo(w: WhitelistConfig, account: string): (r: WhitelistConfig)
    ensures r.owners == w.owners && r.description == w.description
    ensures account in r.accounts
    ensures account in w.accounts ==> r == w
    ensures account !in w.accounts ==> r.accounts == w.accounts + [account]
  {
    if account in w.accounts then w else w.(accounts := w.accounts + [account])
  }

  /** The whitelist after `--remove account`: its first occurrence spliced out, if any. */
  function RemovedFrom(w: WhitelistConfig, account: string): (r: WhitelistConfig)
    ensures r.owners == w.owners && r.description == w.description
    ensures account !in w.accounts ==> r == w
    ensures account in w.accounts ==> |r.accounts| == |w.accounts| - 1
  {
    var i := IndexOf(w.accounts, account);
    if i == -1 then w else w.(accounts := w.accounts[..i] + w.accounts[i + 1..])
  }

  /** Adding twice is adding once, and an account added to a list without it occurs exactly once. */
  lemma AddTwiceAddsOnce(w: WhitelistConfig, account: string)
    ensures AddedTo(AddedTo(w, account), account) == AddedTo(w, account)
    ensures account !in w.accounts ==> multiset(AddedTo(w, account).accounts)[account] == 1
  {
  }

  /**
   * Removal takes out exactly one occurrence (the first), keeping the others in order: the
   * result is the list with the first occurrence of `account` deleted, and as a multiset one
   * copy fewer.
   */
  lemma RemoveDropsFirstOccurrence(w: WhitelistConfig, account: string)
    requires account in w.accounts
    ensures var r := RemovedFrom(w, account).accounts;
      exists i :: 0 <= i < |w.accounts| && w.accounts[i] == account && account !in w.accounts[..i]
                  && r == w.accounts[..i] + w.accounts[i + 1..]
    ensures multiset(RemovedFrom(w, account).accounts) == multiset(w.accounts) - multiset{account}
  {
    var i := IndexOf(w.accounts, account);
    var s := w.accounts;
    assert s == s[..i] + [s[i]] + s[i + 1..];
    assert multiset(s) == multiset(s[..i]) + multiset{account} + multiset(s[i + 1..]);
  }

  /** Removing what was just added to a list without it restores the list. */
  lemma RemoveUndoesAdd(w: WhitelistConfig, account: string)
    requires account !in w.accounts
    ensures RemovedFrom(AddedTo(w, account), account) == w
  {
    var s := w.accounts + [account];
    forall k | 0 <= k < |w.accounts|
      ensures s[k] != account
    {
      assert s[k] == w.accounts[k];
    }
    assert s[..|w.accounts|] == w.accounts;
  }

  /**
   * Against the safety gate: after an add the account is whitelisted whatever its owner, and
   * every other account keeps its standing; after removing an account that occurred once, it
   * is whitelisted only through its owner.
   */
  lemma WhitelistEditsAndTheGate(w: WhitelistConfig, account: string, other: string, owner: Option<string>)
    ensures SafetyGate.Listed(AddedTo(w, account), account, owner)
    ensures other != account ==> (SafetyGate.Listed(AddedTo(w, account), other, owner) <==> SafetyGate.Listed(w, other, owner))
    ensures multiset(w.accounts)[account] <= 1 ==>
              (SafetyGate.Listed(RemovedFrom(w, account), account, owner)
               <==> owner.Some? && owner.value != "" && owner.value in w.owners)
  {
    if account in w.accounts {
      RemoveDropsFirstOccurrence(w, account);
      var r := RemovedFrom(w, account).accounts;
      if account in r {
        assert multiset(r)[account] > 0;
      }
    }
  }

  /** A commander option counts only when given with a non-empty value (JavaScript truthiness). */
  predicate Given(option: Option<string>) {
    option.Some? && option.value != ""
  }

  datatype WhitelistOutcome = Added | AlreadyListed | Removed | NotListed | Listing(accounts: seq<string>)

  /**
   * The `whitelist` command: `--add` takes priority over `--remove`; a change is saved as the
   * whole document, no change saves nothing, and without either option the accounts are listed.
   * The stop document is never touched.
   */
  method WhitelistCommand(store: SafetyGate.FileStore, add: Option<string>, remove: Option<string>)
    returns (outcome: WhitelistOutcome)
    modifies store
    ensures store.stopDoc == old(store.stopDoc)
    ensures var w := SafetyGate.WhitelistOrEmpty(old(store.whitelistDoc));
      && (Given(add) ==>
            if add.value in w.accounts then outcome == AlreadyListed && store.whitelistDoc == old(store.whitelistDoc)
            else outcome == Added && store.whitelistDoc == Some(AddedTo(w, add.value)))
      && (!Given(add) && Given(remove) ==>
            if remove.value in w.accounts then outcome == Removed && store.whitelistDoc == Some(RemovedFrom(w, remove.value))
            else outcome == NotListed && store.whitelistDoc == old(store.whitelistDoc))
      && (!Given(add) && !Given(remove) ==>
            outcome == Listing(w.accounts) && store.whitelistDoc == old(store.whitelistDoc))
  {
    var whitelist := store.LoadWhitelist();
    if Given(add) {
      if add.value !in whitelist.accounts {
        whitelist := whitelist.(accounts := whitelist.accounts + [add.value]);
        store.SaveWhitelist(whitelist);
        outcome := Added;
      } else {
        outcome := AlreadyListed;
      }
    } else if Given(remove) {
      var index := IndexOf(whitelist.accounts, remove.value);
      if index > -1 {
        whitelist := whitelist.(accounts := whitelist.accounts[..index] + whitelist.accounts[index + 1..]);
        store.SaveWhitelist(whitelist);
        outcome := Removed;
      } else {
        outcome := NotListed;
      }
    } else {
      outcome := Listing(whitelist.accounts);
    }
  }

  /**
   * The `reclaim` command: the same scan, audit and batch as the cycle, with no stop check
   * before the scan. A failure exits with 1 and writes nothing. Nothing eligible exits with 0
   * after the survey's entries, with no summary line. Otherwise the batch's entries and the
   * summary follow. The metrics refresh is the cycle's alone: the command moves only what the
   * batch's ledger entries move.
   */
  method ReclaimCommand(store: SafetyGate.FileStore, logger: Ledger.LoggerService, key: Scheduler.OperatorKey,
                        rpc: Scanner.Rpc, auditChain: string -> Auditor.ChainSnapshot,
                        reclaimChain: string -> Reclaimer.ReclaimChain, external: nat -> SafetyGate.Interference,
                        config: BotConfig, now: int)
    returns (outcome: Scheduler.CycleOutcome, exitCode: int)
    modifies store, logger
    ensures exitCode == (if outcome.CycleFailed? then 1 else 0)
    ensures key.KeyError? ==>
              && outcome == Scheduler.CycleFailed(key.message)
              && logger.logs == old(logger.logs) && logger.logFile == old(logger.logFile)
              && logger.metrics == old(logger.metrics)
    ensures key.KeyLoaded? ==>
              var survey := Scheduler.SurveyOf(old(store.whitelistDoc), key.pubkey, rpc, auditChain, config, now);
              && (survey.SurveyFailed? ==>
                    && outcome == Scheduler.CycleFailed(survey.message)
                    && logger.logs == old(logger.logs) && logger.logFile == old(logger.logFile)
                    && logger.metrics == old(logger.metrics))
              && (survey.Surveyed? ==>
                    var env := Reclaimer.BatchEnv(reclaimChain, old(store.stopDoc), external, config.dryRun, now);
                    var records := Scheduler.SurveyRecords(survey, now);
                    && outcome == Scheduler.CycleResult(survey.verdicts, env)
                    && (outcome.NothingEligible? ==>
                          && logger.logs == old(logger.logs) + records
                          && logger.logFile == Ledger.AppendedAll(old(logger.logFile), Ledger.JsonLines(records))
                          && logger.metrics == old(logger.metrics))
                    && (outcome.Completed? ==>
                          var entries := Reclaimer.EntryRecordsOf(Scheduler.CycleAttempts(survey.verdicts, env), now);
                          && logger.logs == old(logger.logs) + records + entries
                          && logger.logFile
                             == Ledger.Appended(Ledger.AppendedAll(Ledger.AppendedAll(old(logger.logFile), Ledger.JsonLines(records)),
                                                                   Ledger.JsonLines(entries)),
                                                Scheduler.SummaryLine(outcome, now))
                          && logger.metrics
                             == Reclaimer.BatchMetrics(old(logger.metrics), Scheduler.CycleAttempts(survey.verdicts, env), now)
                          && logger.metrics.totalReclaimed == old(logger.metrics.totalReclaimed) + outcome.totalAmount))
  {
    if key.KeyError? {
      return Scheduler.CycleFailed(key.message), 1;
    }
    var survey := Scheduler.ScanAndAudit(store, logger, key.pubkey, rpc, auditChain, config, now);
    if survey.SurveyFailed? {
      return Scheduler.CycleFailed(survey.message), 1;
    }
    var eligible := Scheduler.EligibleAccounts(survey.verdicts);
    if |eligible| == 0 {
      return Scheduler.NothingEligible(|survey.verdicts|), 0;
    }
    outcome := Scheduler.ReclaimEligible(store, logger, survey.verdicts, reclaimChain, external, config, now);
    exitCode := 0;
  }
}
