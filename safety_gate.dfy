/**
 * The safety gate of bot/src/utils/validation.utils.ts: a whitelist and an emergency-stop
 * switch, each a JSON document in its own file. A file that cannot be read or parsed is
 * `None` in the store; loading it gives the safe default, and saving replaces the whole
 * document.
 */
module SafetyGate {
  import opened Wrappers
  import opened Types

  /** What `loadWhitelist` returns when the file cannot be read. */
  const EMPTY_WHITELIST: WhitelistConfig := WhitelistConfig([], [], "")

  /** What `loadEmergencyStop` returns when the file cannot be read. */
  const NOT_STOPPED: EmergencyStopState := EmergencyStopState(false, None, "")

  /** The whitelist a load yields from the file's contents. */
  function WhitelistOrEmpty(doc: Option<WhitelistConfig>): (w: WhitelistConfig)
    ensures doc.Some? ==> w == doc.value
    ensures doc.None? ==> w.accounts == [] && w.owners == [] && w.description == ""
  {
    doc.GetOr(EMPTY_WHITELIST)
  }

  /** The stop state a load yields from the file's contents. */
  function StopOrDefault(doc: Option<EmergencyStopState>): (s: EmergencyStopState)
    ensures doc.Some? ==> s == doc.value
    ensures doc.None? ==> !s.stopped && s.stoppedAt.None? && s.reason == ""
  {
    doc.GetOr(NOT_STOPPED)
  }

  /**
   * `isWhitelisted` on a loaded document: the account is listed, or an owner was given,
   * is a non-empty string, and is listed among the owners.
   */
  predicate Listed(w: WhitelistConfig, account: string, owner: Option<string>) {
    account in w.accounts || (owner.Some? && owner.value != "" && owner.value in w.owners)
  }

  /** The stop document's own invariant: a stop time is recorded exactly while stopped. */
  predicate StopConsistent(s: EmergencyStopState) {
    s.stoppedAt.Some? <==> s.stopped
  }

  /** Without an owner argument only the account list decides. */
  lemma ListedWithoutOwner(w: WhitelistConfig, account: string)
    ensures Listed(w, account, None) <==> account in w.accounts
    ensures Listed(w, account, Some("")) <==> account in w.accounts
  {
  }

  /** Two whitelists with the same accounts agree on every owner-less query. */
  lemma ListedDependsOnlyOnAccounts(w1: WhitelistConfig, w2: WhitelistConfig, account: string)
    requires w1.accounts == w2.accounts
    ensures Listed(w1, account, None) == Listed(w2, account, None)
  {
  }

  /** The default whitelist protects nothing, and the default stop state is consistent. */
  lemma DefaultsAreSafe(account: string, owner: Option<string>)
    ensures !Listed(WhitelistOrEmpty(None), account, owner)
    ensures !StopOrDefault(None).stopped && StopConsistent(StopOrDefault(None))
  {
  }

  /** An external writer's effect on the stop file between two reads of it. */
  datatype Interference = Untouched | Overwritten(doc: Option<EmergencyStopState>)

  function AfterInterference(doc: Option<EmergencyStopState>, i: Interference): (d: Option<EmergencyStopState>)
    ensures i.Untouched? ==> d == doc
    ensures i.Overwritten? ==> d == i.doc
  {
    match i
    case Untouched => doc
    case Overwritten(d) => d
  }

  /** The two persisted documents. */
  class FileStore {
    var whitelistDoc: Option<WhitelistConfig>
    var stopDoc: Option<EmergencyStopState>

    constructor (whitelist: Option<WhitelistConfig>, stop: Option<EmergencyStopState>)
      ensures whitelistDoc == whitelist && stopDoc == stop
    {
      whitelistDoc := whitelist;
      stopDoc := stop;
    }

    /** `loadWhitelist`. */
    method LoadWhitelist() returns (w: WhitelistConfig)
      ensures whitelistDoc.Some? ==> w == whitelistDoc.value
      ensures whitelistDoc.None? ==> w == EMPTY_WHITELIST
    {
      match whitelistDoc
      case Some(doc) => w := doc;
      case None => w := EMPTY_WHITELIST;
    }

    /** `saveWhitelist`: the file holds exactly `w` afterwards; the stop file is untouched. */
    method SaveWhitelist(w: WhitelistConfig)
      modifies this
      ensures whitelistDoc == Some(w) && stopDoc == old(stopDoc)
    {
      whitelistDoc := Some(w);
    }

    /** `isWhitelisted`: loads the whitelist and tests membership. */
    method IsWhitelisted(account: string, owner: Option<string>) returns (listed: bool)
      ensures listed <==> Listed(WhitelistOrEmpty(whitelistDoc), account, owner)
    {
      var w := LoadWhitelist();
      if account in w.accounts {
        return true;
      }
      if owner.Some? && owner.value != "" && owner.value in w.owners {
        return true;
      }
      return false;
    }

    /** `loadEmergencyStop`. */
    method LoadEmergencyStop() returns (s: EmergencyStopState)
      ensures stopDoc.Some? ==> s == stopDoc.value
      ensures stopDoc.None? ==> s == NOT_STOPPED
    {
      match stopDoc
      case Some(doc) => s := doc;
      case None => s := NOT_STOPPED;
    }

    /** `saveEmergencyStop`: the file holds exactly `s`; the whitelist file is untouched. */
    method SaveEmergencyStop(s: EmergencyStopState)
      modifies this
      ensures stopDoc == Some(s) && whitelistDoc == old(whitelistDoc)
    {
      stopDoc := Some(s);
    }

    /** `enableEmergencyStop`: `now` is the clock reading the source takes. */
    method EnableEmergencyStop(reason: string, now: int)
      modifies this
      ensures stopDoc == Some(EmergencyStopState(true, Some(now), reason))
      ensures whitelistDoc == old(whitelistDoc)
      ensures StopConsistent(StopOrDefault(stopDoc)) && StopOrDefault(stopDoc).stopped
    {
      SaveEmergencyStop(EmergencyStopState(true, Some(now), reason));
    }

    /** `disableEmergencyStop`. */
    method DisableEmergencyStop()
      modifies this
      ensures stopDoc == Some(NOT_STOPPED)
      ensures whitelistDoc == old(whitelistDoc)
      ensures StopConsistent(StopOrDefault(stopDoc)) && !StopOrDefault(stopDoc).stopped
    {
      SaveEmergencyStop(EmergencyStopState(false, None, ""));
    }

    /** An external process replaces (or deletes) the stop file, or leaves it alone. */
    method Interfere(i: Interference)
      modifies this
      ensures stopDoc == AfterInterference(old(stopDoc), i) && whitelistDoc == old(whitelistDoc)
    {
      if i.Overwritten? {
        stopDoc := i.doc;
      }
    }
  }

  /**
   * A load after a save returns exactly what was saved, and enabling then disabling the
   * stop leaves the whitelist alone and reads back as the not-stopped default.
   */
  method SaveEnableDisableThenLoad(store: FileStore, w: WhitelistConfig, reason: string, now: int)
    modifies store
    ensures store.whitelistDoc == Some(w) && store.stopDoc == Some(NOT_STOPPED)
  {
    store.SaveWhitelist(w);
    var w' := store.LoadWhitelist();
    assert w' == w;
    store.EnableEmergencyStop(reason, now);
    var s := store.LoadEmergencyStop();
    assert s == EmergencyStopState(true, Some(now), reason);
    store.DisableEmergencyStop();
    s := store.LoadEmergencyStop();
    assert s == EmergencyStopState(false, None, "");
  }
}
