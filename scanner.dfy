/**
 * The scanner of bot/src/services/monitor.service.ts. It pages backward through the
 * operator wallet's signature history, fetches each transaction, and extracts the token
 * accounts the operator paid to initialize. The two RPC calls are the oracle `Rpc`: a page
 * of signatures for a cursor and a page size, and a parsed transaction for a signature.
 */
module Scanner {
  import opened Wrappers
  import opened Types
  import opened Strings
  import AtaUtils
  import Ledger

  /** The hard cap on signatures examined by one scan. */
  const SCAN_CAP: nat := 5000

  /** The memo marker the second sponsorship heuristic looks for. */
  const KORA_MARKER: string := "KORA"

  /** The parsed instruction type that creates a token account. */
  const INITIALIZE_ACCOUNT: string := "initializeAccount"

  /** The parsed part of an instruction: its type and the fields of its `info`. */
  datatype ParsedInfo = ParsedInfo(kind: string, account: string, mint: string, owner: string, data: Option<string>)

  datatype Instruction = Instruction(programId: string, parsed: Option<ParsedInfo>)

  /**
   * A parsed transaction: whether it has `meta`, its first account key (the fee payer; absent
   * when the key list is empty), its top-level instructions and its block time in seconds.
   */
  datatype ParsedTransaction = ParsedTransaction(
    hasMeta: bool,
    feePayer: Option<string>,
    instructions: seq<Instruction>,
    blockTime: Option<int>)

  datatype SignatureInfo = SignatureInfo(signature: string, blockTime: Option<int>)

  /** `getSignaturesForAddress`: a page, newest first, or a thrown error. */
  datatype PageFetch = Page(signatures: seq<SignatureInfo>) | PageError(message: string)

  /** `getParsedTransaction`: the transaction, `null`, or a thrown error. */
  datatype TxFetch = TxFound(tx: ParsedTransaction) | TxNull | TxError(message: string)

  /** The RPC node as the scanner sees it: `page(before, limit)` and `transaction(signature)`. */
  datatype Rpc = Rpc(page: (Option<string>, nat) -> PageFetch, transaction: string -> TxFetch)

  // ---------------------------------------------------------------------------------------
  // Classification

  /** The instruction's program id is a configured sponsorship identifier. */
  predicate KoraProgram(ix: Instruction, ids: set<string>) {
    ix.programId in ids
  }

  /** The instruction's parsed data string contains the marker. */
  predicate KoraMemo(ix: Instruction) {
    ix.parsed.Some? && ix.parsed.value.data.Some? && Contains(ix.parsed.value.data.value, KORA_MARKER)
  }

  /**
   * `isKoraSponsoredTransaction`: an identifier program among the instructions, else a
   * marked memo, else a fee payer among the identifiers, else "the operator paid the fee".
   */
  function IsKoraSponsored(tx: ParsedTransaction, operator: string, ids: set<string>): bool {
    if exists i :: 0 <= i < |tx.instructions| && KoraProgram(tx.instructions[i], ids) then true
    else if exists i :: 0 <= i < |tx.instructions| && KoraMemo(tx.instructions[i]) then true
    else if tx.feePayer.Some? && tx.feePayer.value in ids then true
    else tx.feePayer == Some(operator)
  }

  /** The verdict is the disjunction of the three heuristics and the fallback. */
  lemma KoraVerdict(tx: ParsedTransaction, operator: string, ids: set<string>)
    ensures IsKoraSponsored(tx, operator, ids) <==>
              (exists i :: 0 <= i < |tx.instructions| && KoraProgram(tx.instructions[i], ids))
              || (exists i :: 0 <= i < |tx.instructions| && KoraMemo(tx.instructions[i]))
              || (tx.feePayer.Some? && tx.feePayer.value in ids)
              || tx.feePayer == Some(operator)
  {
  }

  /** Configuring more identifiers never withdraws a sponsorship verdict. */
  lemma KoraVerdictMonotone(tx: ParsedTransaction, operator: string, ids: set<string>, more: set<string>)
    requires ids <= more
    ensures IsKoraSponsored(tx, operator, ids) ==> IsKoraSponsored(tx, operator, more)
  {
    if exists i :: 0 <= i < |tx.instructions| && KoraProgram(tx.instructions[i], ids) {
      var i :| 0 <= i < |tx.instructions| && KoraProgram(tx.instructions[i], ids);
      assert KoraProgram(tx.instructions[i], more);
    }
  }

  /** A Token-program `initializeAccount` instruction. */
  predicate IsInitAccount(ix: Instruction) {
    ix.programId == AtaUtils.TOKEN_PROGRAM_ID && ix.parsed.Some? && ix.parsed.value.kind == INITIALIZE_ACCOUNT
  }

  /** The candidate `extractSponsoredAccounts` builds from an `initializeAccount` instruction. */
  function AccountOf(ix: Instruction, tx: ParsedTransaction, kora: bool): SponsoredAccount
    requires ix.parsed.Some?
  {
    var info := ix.parsed.value;
    SponsoredAccount(info.account, Ata, tx.blockTime.GetOr(0) * 1000, 0, info.owner, Some(info.mint), Some(kora))
  }

  /**
   * The extraction loop over a prefix of the instructions. `None` stands for the error the
   * source throws when it reads the fee payer of a transaction whose key list is empty.
   */
  function ExtractedFrom(ixs: seq<Instruction>, tx: ParsedTransaction, operator: string, kora: bool)
    : Option<seq<SponsoredAccount>>
    decreases |ixs|
  {
    if ixs == [] then Some([])
    else
      match ExtractedFrom(ixs[..|ixs| - 1], tx, operator, kora)
      case None => None
      case Some(found) =>
        var ix := ixs[|ixs| - 1];
        if !IsInitAccount(ix) then Some(found)
        else if tx.feePayer.None? then None
        else if tx.feePayer.value == operator then Some(found + [AccountOf(ix, tx, kora)])
        else Some(found)
  }

  /** `extractSponsoredAccounts` as a function of the transaction. */
  function Extract(tx: ParsedTransaction, operator: string, ids: set<string>): Option<seq<SponsoredAccount>> {
    if !tx.hasMeta then Some([])
    else ExtractedFrom(tx.instructions, tx, operator, IsKoraSponsored(tx, operator, ids))
  }

  /** Once the extraction loop has thrown on a prefix, the whole extraction throws. */
  lemma {:induction false} ExtractionErrorPersists(ixs: seq<Instruction>, k: nat, tx: ParsedTransaction, operator: string, kora: bool)
    requires k <= |ixs|
    requires ExtractedFrom(ixs[..k], tx, operator, kora).None?
    ensures ExtractedFrom(ixs, tx, operator, kora).None?
    decreases |ixs| - k
  {
    if k == |ixs| {
      assert ixs[..k] == ixs;
    } else {
      assert ixs[..k + 1][..k] == ixs[..k];
      ExtractionErrorPersists(ixs, k + 1, tx, operator, kora);
    }
  }

  /**
   * Every account the loop produces is an ATA with zero rent, stamped with the block time in
   * milliseconds and tagged with the transaction's verdict, and only an operator-paid
   * transaction produces any.
   */
  lemma {:induction false} ExtractedFromShape(ixs: seq<Instruction>, tx: ParsedTransaction, operator: string, kora: bool)
    ensures ExtractedFrom(ixs, tx, operator, kora).Some? ==>
              var found := ExtractedFrom(ixs, tx, operator, kora).value;
              |found| <= |ixs|
              && (found != [] ==> tx.feePayer == Some(operator))
              && forall a :: a in found ==>
                   a.kind == Ata && a.rentLamports == 0 && a.createdAt == tx.blockTime.GetOr(0) * 1000
                   && a.koraSponsored == Some(kora)
    decreases |ixs|
  {
    if ixs != [] {
      ExtractedFromShape(ixs[..|ixs| - 1], tx, operator, kora);
    }
  }

  /** The fallback makes every extracted account Kora-sponsored. */
  lemma ExtractedAreKoraSponsored(tx: ParsedTransaction, operator: string, ids: set<string>)
    ensures Extract(tx, operator, ids).Some? ==>
              forall a :: a in Extract(tx, operator, ids).value ==>
                a.koraSponsored == Some(true) && a.kind == Ata && a.rentLamports == 0
  {
    if tx.hasMeta {
      ExtractedFromShape(tx.instructions, tx, operator, IsKoraSponsored(tx, operator, ids));
    }
  }

  /** A transaction some other key paid for yields no candidates. */
  lemma {:induction false} OthersPaidYieldsNothing(ixs: seq<Instruction>, tx: ParsedTransaction, operator: string, kora: bool)
    requires tx.feePayer.Some? && tx.feePayer.value != operator
    ensures ExtractedFrom(ixs, tx, operator, kora) == Some([])
    decreases |ixs|
  {
    if ixs != [] {
      OthersPaidYieldsNothing(ixs[..|ixs| - 1], tx, operator, kora);
    }
  }

  // ---------------------------------------------------------------------------------------
  // Pages

  /** What one signature contributes: its extracted accounts, or nothing when it fails. */
  function AccountsOfSignature(rpc: Rpc, sig: SignatureInfo, operator: string, ids: set<string>): seq<SponsoredAccount> {
    match rpc.transaction(sig.signature)
    case TxFound(tx) => (match Extract(tx, operator, ids) case Some(found) => found case None => [])
    case TxNull => []
    case TxError(_) => []
  }

  /** The accounts a page yields, signature by signature, in page order. */
  function PageAccounts(rpc: Rpc, sigs: seq<SignatureInfo>, operator: string, ids: set<string>): seq<SponsoredAccount>
    decreases |sigs|
  {
    if sigs == [] then []
    else PageAccounts(rpc, sigs[..|sigs| - 1], operator, ids) + AccountsOfSignature(rpc, sigs[|sigs| - 1], operator, ids)
  }

  lemma {:induction false} PageAccountsAppend(rpc: Rpc, a: seq<SignatureInfo>, b: seq<SignatureInfo>, operator: string, ids: set<string>)
    ensures PageAccounts(rpc, a + b, operator, ids) == PageAccounts(rpc, a, operator, ids) + PageAccounts(rpc, b, operator, ids)
    decreases |b|
  {
    if b == [] {
      assert a + b == a;
    } else {
      assert (a + b)[..|a + b| - 1] == a + b[..|b| - 1];
      PageAccountsAppend(rpc, a, b[..|b| - 1], operator, ids);
    }
  }

  /** The fetch threw, returned `null`, or returned a transaction whose extraction throws. */
  predicate YieldsNothing(fetched: TxFetch, operator: string, ids: set<string>) {
    fetched.TxFound? ==> Extract(fetched.tx, operator, ids).None?
  }

  /** A signature whose fetch or extraction fails is skipped; the rest of the page still counts. */
  lemma FailedSignatureSkipped(rpc: Rpc, sigs: seq<SignatureInfo>, i: nat, operator: string, ids: set<string>)
    requires i < |sigs|
    requires YieldsNothing(rpc.transaction(sigs[i].signature), operator, ids)
    ensures PageAccounts(rpc, sigs, operator, ids)
            == PageAccounts(rpc, sigs[..i], operator, ids) + PageAccounts(rpc, sigs[i + 1..], operator, ids)
  {
    var before, after := sigs[..i], sigs[i + 1..];
    var upTo := sigs[..i + 1];
    assert sigs == upTo + after;
    PageAccountsAppend(rpc, upTo, after, operator, ids);
    assert upTo[..|upTo| - 1] == before;
    assert AccountsOfSignature(rpc, sigs[i], operator, ids) == [];
    assert PageAccounts(rpc, upTo, operator, ids) == PageAccounts(rpc, before, operator, ids);
  }

  // ---------------------------------------------------------------------------------------
  // The scan

  function Last<T>(s: seq<T>): T
    requires s != []
  {
    s[|s| - 1]
  }

  /**
   * One scan from cursor `before` with `total` signatures already counted: the failure, if a
   * page fetch threw; the accounts found; the final count; the cursor of every page request;
   * and the non-empty pages processed.
   */
  datatype ScanRun = ScanRun(
    failure: Option<string>,
    accounts: seq<SponsoredAccount>,
    total: nat,
    cursors: seq<Option<string>>,
    pages: seq<seq<SignatureInfo>>)

  /**
   * The scan loop as a function: fetch a page at the cursor; stop on an error or an empty
   * page; otherwise count it, extract its accounts, move the cursor to its last (oldest)
   * signature, and go on unless the count has reached the cap.
   */
  function ScanFrom(rpc: Rpc, limit: nat, operator: string, ids: set<string>, before: Option<string>, total: nat): ScanRun
    requires total < SCAN_CAP
    decreases SCAN_CAP - total
  {
    match rpc.page(before, limit)
    case PageError(m) => ScanRun(Some(m), [], total, [before], [])
    case Page(sigs) =>
      if sigs == [] then ScanRun(None, [], total, [before], [])
      else
        var found := PageAccounts(rpc, sigs, operator, ids);
        var counted := total + |sigs|;
        if counted >= SCAN_CAP then ScanRun(None, found, counted, [before], [sigs])
        else
          var rest := ScanFrom(rpc, limit, operator, ids, Some(Last(sigs).signature), counted);
          ScanRun(rest.failure, found + rest.accounts, rest.total, [before] + rest.cursors, [sigs] + rest.pages)
  }

  function SumLengths(pages: seq<seq<SignatureInfo>>): nat {
    if pages == [] then 0 else |pages[0]| + SumLengths(pages[1..])
  }

  /** The signatures counted once page `j` has been processed. */
  function CountedThrough(pages: seq<seq<SignatureInfo>>, j: nat): nat
    requires j < |pages|
  {
    SumLengths(pages[..j + 1])
  }

  function AccountsOfPages(rpc: Rpc, pages: seq<seq<SignatureInfo>>, operator: string, ids: set<string>): seq<SponsoredAccount> {
    if pages == [] then [] else PageAccounts(rpc, pages[0], operator, ids) + AccountsOfPages(rpc, pages[1..], operator, ids)
  }

  /**
   * The requests follow the pages: the first uses the starting cursor, each processed page
   * is what its request returned and is non-empty, and every later request uses the last
   * signature of the page before it. The count is the sum of the page lengths and the
   * accounts are those of the pages, in order.
   */
  lemma ScanTrace(rpc: Rpc, limit: nat, operator: string, ids: set<string>, before: Option<string>, total: nat)
    requires total < SCAN_CAP
    ensures var run := ScanFrom(rpc, limit, operator, ids, before, total);
      && |run.cursors| >= 1 && run.cursors[0] == before
      && (|run.pages| == |run.cursors| || |run.pages| + 1 == |run.cursors|)
      && (forall j :: 0 <= j < |run.pages| ==>
            rpc.page(run.cursors[j], limit) == Page(run.pages[j]) && run.pages[j] != [])
      && (forall j :: 0 < j < |run.cursors| ==> run.cursors[j] == Some(Last(run.pages[j - 1]).signature))
      && run.total == total + SumLengths(run.pages)
      && run.accounts == AccountsOfPages(rpc, run.pages, operator, ids)
  {
    ScanShape(rpc, limit, operator, ids, before, total);
    ScanRequests(rpc, limit, operator, ids, before, total);
    ScanCursors(rpc, limit, operator, ids, before, total);
    ScanTotals(rpc, limit, operator, ids, before, total);
  }

  /** Each processed page is the non-empty answer to the request made with its cursor. */
  lemma {:induction false} ScanRequests(rpc: Rpc, limit: nat, operator: string, ids: set<string>, before: Option<string>, total: nat)
    requires total < SCAN_CAP
    ensures var run := ScanFrom(rpc, limit, operator, ids, before, total);
      && |run.cursors| >= 1 && run.cursors[0] == before && |run.pages| <= |run.cursors|
      && forall j :: 0 <= j < |run.pages| ==>
           rpc.page(run.cursors[j], limit) == Page(run.pages[j]) && run.pages[j] != []
    decreases SCAN_CAP - total
  {
    match rpc.page(before, limit)
    case PageError(m) =>
    case Page(sigs) =>
      if sigs != [] && total + |sigs| < SCAN_CAP {
        ScanRequests(rpc, limit, operator, ids, Some(Last(sigs).signature), total + |sigs|);
        var run := ScanFrom(rpc, limit, operator, ids, before, total);
        var rest := ScanFrom(rpc, limit, operator, ids, Some(Last(sigs).signature), total + |sigs|);
        assert run.pages == [sigs] + rest.pages && run.cursors == [before] + rest.cursors;
        forall j | 0 < j < |run.pages|
          ensures rpc.page(run.cursors[j], limit) == Page(run.pages[j]) && run.pages[j] != []
        {
          assert run.cursors[j] == rest.cursors[j - 1] && run.pages[j] == rest.pages[j - 1];
        }
      }
  }

  /** Every request after the first uses the last signature of the page before it. */
  lemma {:induction false} ScanCursors(rpc: Rpc, limit: nat, operator: string, ids: set<string>, before: Option<string>, total: nat)
    requires total < SCAN_CAP
    ensures var run := ScanFrom(rpc, limit, operator, ids, before, total);
      && |run.cursors| <= |run.pages| + 1
      && (forall j :: 0 <= j < |run.pages| ==> run.pages[j] != [])
      && forall j :: 0 < j < |run.cursors| ==> run.cursors[j] == Some(Last(run.pages[j - 1]).signature)
    decreases SCAN_CAP - total
  {
    match rpc.page(before, limit)
    case PageError(m) =>
    case Page(sigs) =>
      if sigs != [] && total + |sigs| < SCAN_CAP {
        ScanCursors(rpc, limit, operator, ids, Some(Last(sigs).signature), total + |sigs|);
        var run := ScanFrom(rpc, limit, operator, ids, before, total);
        var rest := ScanFrom(rpc, limit, operator, ids, Some(Last(sigs).signature), total + |sigs|);
        assert run.pages == [sigs] + rest.pages && run.cursors == [before] + rest.cursors;
        forall j | 0 < j < |run.pages|
          ensures run.pages[j] != []
        {
          assert run.pages[j] == rest.pages[j - 1];
        }
        forall j | 0 < j < |run.cursors|
          ensures run.cursors[j] == Some(Last(run.pages[j - 1]).signature)
        {
          if j > 1 {
            assert run.cursors[j] == rest.cursors[j - 1] && run.pages[j - 1] == rest.pages[j - 2];
          }
        }
      }
  }

  /** The count is the starting count plus the page lengths; the accounts are the pages' accounts in order. */
  lemma {:induction false} ScanTotals(rpc: Rpc, limit: nat, operator: string, ids: set<string>, before: Option<string>, total: nat)
    requires total < SCAN_CAP
    ensures var run := ScanFrom(rpc, limit, operator, ids, before, total);
      && run.total == total + SumLengths(run.pages)
      && run.accounts == AccountsOfPages(rpc, run.pages, operator, ids)
    decreases SCAN_CAP - total
  {
    match rpc.page(before, limit)
    case PageError(m) =>
    case Page(sigs) =>
      if sigs != [] && total + |sigs| < SCAN_CAP {
        ScanTotals(rpc, limit, operator, ids, Some(Last(sigs).signature), total + |sigs|);
        var run := ScanFrom(rpc, limit, operator, ids, before, total);
        var rest := ScanFrom(rpc, limit, operator, ids, Some(Last(sigs).signature), total + |sigs|);
        assert run.pages == [sigs] + rest.pages;
        assert run.pages[1..] == rest.pages;
      }
  }

  /** A run has one cursor per page, plus one more when it ended on an empty page or an error. */
  lemma {:induction false} ScanShape(rpc: Rpc, limit: nat, operator: string, ids: set<string>, before: Option<string>, total: nat)
    requires total < SCAN_CAP
    ensures var run := ScanFrom(rpc, limit, operator, ids, before, total);
      |run.cursors| >= 1 && (|run.pages| == |run.cursors| || |run.pages| + 1 == |run.cursors|)
    decreases SCAN_CAP - total
  {
    match rpc.page(before, limit)
    case PageError(m) =>
    case Page(sigs) =>
      if sigs != [] && total + |sigs| < SCAN_CAP {
        ScanShape(rpc, limit, operator, ids, Some(Last(sigs).signature), total + |sigs|);
      }
  }

  /**
   * How the scan ends: on a failed or empty page request, whose page is then not processed,
   * or on a processed page that brings the count to the cap.
   */
  lemma {:induction false} ScanStops(rpc: Rpc, limit: nat, operator: string, ids: set<string>, before: Option<string>, total: nat)
    requires total < SCAN_CAP
    ensures var run := ScanFrom(rpc, limit, operator, ids, before, total);
      && (|run.pages| + 1 == |run.cursors| ==>
            match rpc.page(Last(run.cursors), limit)
            case PageError(m) => run.failure == Some(m)
            case Page(sigs) => sigs == [] && run.failure.None?)
      && (|run.pages| == |run.cursors| ==> run.total >= SCAN_CAP && run.failure.None?)
    decreases SCAN_CAP - total
  {
    match rpc.page(before, limit)
    case PageError(m) =>
    case Page(sigs) =>
      if sigs != [] && total + |sigs| < SCAN_CAP {
        var next := Some(Last(sigs).signature);
        ScanStops(rpc, limit, operator, ids, next, total + |sigs|);
        ScanShape(rpc, limit, operator, ids, next, total + |sigs|);
        var rest := ScanFrom(rpc, limit, operator, ids, next, total + |sigs|);
        assert Last([before] + rest.cursors) == Last(rest.cursors);
      }
  }

  /** Counting through page `j` of a run that starts with `sigs` is `sigs` plus counting through page `j - 1` of the rest. */
  lemma CountedThroughTail(sigs: seq<SignatureInfo>, rest: seq<seq<SignatureInfo>>, j: nat)
    requires 0 < j <= |rest|
    ensures CountedThrough([sigs] + rest, j) == |sigs| + CountedThrough(rest, j - 1)
  {
    assert ([sigs] + rest)[..j + 1] == [sigs] + rest[..j];
    assert ([sigs] + rest[..j])[1..] == rest[..j];
  }

  /** A processed page that leaves the count below the cap, short or not, is always followed by another request. */
  lemma {:induction false} ScanContinuesBelowCap(rpc: Rpc, limit: nat, operator: string, ids: set<string>, before: Option<string>, total: nat)
    requires total < SCAN_CAP
    ensures var run := ScanFrom(rpc, limit, operator, ids, before, total);
      forall j :: 0 <= j < |run.pages| && total + CountedThrough(run.pages, j) < SCAN_CAP ==> j + 1 < |run.cursors|
    decreases SCAN_CAP - total
  {
    var run := ScanFrom(rpc, limit, operator, ids, before, total);
    match rpc.page(before, limit)
    case PageError(m) =>
    case Page(sigs) =>
      if sigs != [] {
        if total + |sigs| < SCAN_CAP {
          var next := Some(Last(sigs).signature);
          ScanContinuesBelowCap(rpc, limit, operator, ids, next, total + |sigs|);
          ScanShape(rpc, limit, operator, ids, next, total + |sigs|);
          var rest := ScanFrom(rpc, limit, operator, ids, next, total + |sigs|);
          assert run.pages == [sigs] + rest.pages && run.cursors == [before] + rest.cursors;
          forall j | 0 <= j < |run.pages| && total + CountedThrough(run.pages, j) < SCAN_CAP
            ensures j + 1 < |run.cursors|
          {
            if j > 0 {
              CountedThroughTail(sigs, rest.pages, j);
            }
          }
        } else {
          assert run.pages == [sigs];
          assert run.pages[..1] == [sigs];
          assert SumLengths([sigs]) == |sigs|;
        }
      }
  }

  /** Every page the RPC returns honours the requested size. */
  ghost predicate PagesWithin(rpc: Rpc, limit: nat) {
    forall b :: rpc.page(b, limit).Page? ==> |rpc.page(b, limit).signatures| <= limit
  }

  /** A scan counts fewer than the cap plus one page of signatures. */
  lemma {:induction false} ScanTotalBound(rpc: Rpc, limit: nat, operator: string, ids: set<string>, before: Option<string>, total: nat)
    requires total < SCAN_CAP
    requires PagesWithin(rpc, limit)
    ensures total <= ScanFrom(rpc, limit, operator, ids, before, total).total < SCAN_CAP + limit
    decreases SCAN_CAP - total
  {
    match rpc.page(before, limit)
    case PageError(m) =>
    case Page(sigs) =>
      if sigs != [] && total + |sigs| < SCAN_CAP {
        ScanTotalBound(rpc, limit, operator, ids, Some(Last(sigs).signature), total + |sigs|);
      }
  }

  // ---------------------------------------------------------------------------------------
  // A history-backed RPC node

  /** The index of the first signature equal to `s`, or -1. */
  function IndexOfSignature(history: seq<SignatureInfo>, s: string): (k: int)
    ensures -1 <= k < |history|
    ensures k >= 0 ==> history[k].signature == s && forall j :: 0 <= j < k ==> history[j].signature != s
    ensures k == -1 ==> forall j :: 0 <= j < |history| ==> history[j].signature != s
  {
    if history == [] then -1
    else if history[0].signature == s then 0
    else
      var k := IndexOfSignature(history[1..], s);
      if k == -1 then -1 else k + 1
  }

  /**
   * `getSignaturesForAddress` over a fixed history (newest first): up to `limit` signatures
   * older than the cursor; an unknown cursor gives an empty page.
   */
  function HistoryPage(history: seq<SignatureInfo>, before: Option<string>, limit: nat): PageFetch {
    var start := match before
                 case None => 0
                 case Some(s) => if IndexOfSignature(history, s) < 0 then |history| else IndexOfSignature(history, s) + 1;
    var end := if start + limit < |history| then start + limit else |history|;
    Page(history[start..end])
  }

  ghost predicate DistinctSignatures(history: seq<SignatureInfo>) {
    forall i, j :: 0 <= i < j < |history| ==> history[i].signature != history[j].signature
  }

  /**
   * A history shorter than one page is read in one page, and the scan still asks for a second
   * page (which comes back empty) before it stops: two requests, not one.
   */
  lemma ShortHistoryTakesTwoRequests(history: seq<SignatureInfo>, transactions: string -> TxFetch, limit: nat, operator: string, ids: set<string>)
    requires 0 < |history| < limit && |history| < SCAN_CAP
    requires DistinctSignatures(history)
    ensures var rpc := Rpc((b: Option<string>, l: nat) => HistoryPage(history, b, l), transactions);
      var run := ScanFrom(rpc, limit, operator, ids, None, 0);
      && run.cursors == [None, Some(Last(history).signature)]
      && run.pages == [history]
      && run.total == |history|
      && run.failure.None?
      && run.accounts == PageAccounts(rpc, history, operator, ids)
  {
    var rpc := Rpc((b: Option<string>, l: nat) => HistoryPage(history, b, l), transactions);
    assert history[0..|history|] == history;
    assert rpc.page(None, limit) == Page(history);
    var last := Last(history).signature;
    assert IndexOfSignature(history, last) == |history| - 1;
    assert rpc.page(Some(last), limit) == Page([]);
  }

  // ---------------------------------------------------------------------------------------
  // Statistics

  function CountKora(accounts: seq<SponsoredAccount>): nat {
    if accounts == [] then 0
    else (if accounts[0].koraSponsored == Some(true) then 1 else 0) + CountKora(accounts[1..])
  }

  function CountOther(accounts: seq<SponsoredAccount>): nat {
    if accounts == [] then 0
    else (if accounts[0].koraSponsored != Some(true) then 1 else 0) + CountOther(accounts[1..])
  }

  lemma {:induction false} CountsPartition(accounts: seq<SponsoredAccount>)
    ensures CountKora(accounts) + CountOther(accounts) == |accounts|
  {
    if accounts != [] {
      CountsPartition(accounts[1..]);
    }
  }

  datatype KoraStatistics = KoraStatistics(totalAccounts: nat, koraSponsored: nat, otherSponsored: nat)

  /** `getKoraStatistics` (counts only): every account is counted on exactly one side. */
  function GetKoraStatistics(accounts: seq<SponsoredAccount>): (stats: KoraStatistics)
    ensures stats.totalAccounts == |accounts|
    ensures stats.koraSponsored + stats.otherSponsored == stats.totalAccounts
  {
    CountsPartition(accounts);
    KoraStatistics(|accounts|, CountKora(accounts), CountOther(accounts))
  }

  // ---------------------------------------------------------------------------------------
  // The service

  datatype ScanOutcome = Scanned(accounts: seq<SponsoredAccount>, total: nat) | ScanFailed(message: string)

  function OutcomeOf(run: ScanRun): ScanOutcome {
    if run.failure.Some? then ScanFailed(run.failure.value) else Scanned(run.accounts, run.total)
  }

  /** The outcome of a scan that has already found `accounts` and whose remaining run is `rest`. */
  function Continued(accounts: seq<SponsoredAccount>, rest: ScanRun): ScanOutcome {
    if rest.failure.Some? then ScanFailed(rest.failure.value) else Scanned(accounts + rest.accounts, rest.total)
  }

  /** Moving a page's accounts from the remaining run to those already found changes nothing. */
  lemma ContinuedStep(accounts: seq<SponsoredAccount>, found: seq<SponsoredAccount>, next: ScanRun,
                      cursors: seq<Option<string>>, pages: seq<seq<SignatureInfo>>)
    ensures Continued(accounts, ScanRun(next.failure, found + next.accounts, next.total, cursors, pages))
            == Continued(accounts + found, next)
  {
    assert accounts + (found + next.accounts) == (accounts + found) + next.accounts;
  }

  /** The text of the scan's ledger entry. */
  function ScanSummaryText(total: nat, found: nat): string {
    "Scanned " + NatToString(total) + " transactions, found " + NatToString(found) + " accounts"
  }

  /** The entry a successful scan writes. */
  function ScanEntry(total: nat, found: nat): (e: Ledger.LogInput)
    ensures e.account == "N/A" && e.action == Scan && e.status == Success && !Ledger.CountsAsReclaim(e)
  {
    Ledger.LogInput("N/A", Scan, Success, None, Some(ScanSummaryText(total, found)), None)
  }

  class MonitorService {
    const operator: string
    var koraIdentifiers: set<string>

    /** A service for one operator wallet, with no identifiers configured. */
    constructor (operator: string)
      ensures this.operator == operator && koraIdentifiers == {}
    {
      this.operator := operator;
      koraIdentifiers := {};
    }

    /** `addKoraIdentifier`. */
    method AddKoraIdentifier(identifier: string)
      modifies this
      ensures koraIdentifiers == old(koraIdentifiers) + {identifier}
    {
      koraIdentifiers := koraIdentifiers + {identifier};
    }

    /** `extractSponsoredAccounts`: `None` when the loop throws. */
    method ExtractSponsoredAccounts(tx: ParsedTransaction) returns (r: Option<seq<SponsoredAccount>>)
      ensures r == Extract(tx, operator, koraIdentifiers)
    {
      if !tx.hasMeta {
        return Some([]);
      }
      var kora := IsKoraSponsored(tx, operator, koraIdentifiers);
      var accounts: seq<SponsoredAccount> := [];
      for i := 0 to |tx.instructions|
        invariant ExtractedFrom(tx.instructions[..i], tx, operator, kora) == Some(accounts)
      {
        var ix := tx.instructions[i];
        assert tx.instructions[..i + 1][..i] == tx.instructions[..i];
        if IsInitAccount(ix) {
          if tx.feePayer.None? {
            ExtractionErrorPersists(tx.instructions, i + 1, tx, operator, kora);
            return None;
          }
          if tx.feePayer.value == operator {
            accounts := accounts + [AccountOf(ix, tx, kora)];
          }
        }
      }
      assert tx.instructions[..|tx.instructions|] == tx.instructions;
      return Some(accounts);
    }

    /** The inner loop: every signature of a page, skipping those that fail. */
    method ProcessPage(rpc: Rpc, sigs: seq<SignatureInfo>) returns (found: seq<SponsoredAccount>)
      ensures found == PageAccounts(rpc, sigs, operator, koraIdentifiers)
    {
      found := [];
      for k := 0 to |sigs|
        invariant found == PageAccounts(rpc, sigs[..k], operator, koraIdentifiers)
      {
        assert sigs[..k + 1][..k] == sigs[..k];
        var fetched := rpc.transaction(sigs[k].signature);
        if fetched.TxFound? {
          var extracted := ExtractSponsoredAccounts(fetched.tx);
          if extracted.Some? {
            found := found + extracted.value;
          }
        }
      }
      assert sigs[..|sigs|] == sigs;
    }

    /** The pagination loop of `scanWalletHistory`. */
    method ScanHistory(rpc: Rpc, limit: nat) returns (outcome: ScanOutcome)
      ensures outcome == OutcomeOf(ScanFrom(rpc, limit, operator, koraIdentifiers, None, 0))
    {
      var accounts: seq<SponsoredAccount> := [];
      var before: Option<string> := None;
      var total: nat := 0;
      assert Continued([], ScanFrom(rpc, limit, operator, koraIdentifiers, None, 0))
             == OutcomeOf(ScanFrom(rpc, limit, operator, koraIdentifiers, None, 0));
      while true
        invariant total < SCAN_CAP
        invariant Continued(accounts, ScanFrom(rpc, limit, operator, koraIdentifiers, before, total))
                  == OutcomeOf(ScanFrom(rpc, limit, operator, koraIdentifiers, None, 0))
        decreases SCAN_CAP - total
      {
        var page := rpc.page(before, limit);
        if page.PageError? {
          return ScanFailed(page.message);
        }
        var sigs := page.signatures;
        if |sigs| == 0 {
          assert accounts + [] == accounts;
          return Scanned(accounts, total);
        }
        ghost var rest := ScanFrom(rpc, limit, operator, koraIdentifiers, before, total);
        var found := ProcessPage(rpc, sigs);
        if total + |sigs| >= SCAN_CAP {
          return Scanned(accounts + found, total + |sigs|);
        }
        ghost var next := ScanFrom(rpc, limit, operator, koraIdentifiers, Some(Last(sigs).signature), total + |sigs|);
        ContinuedStep(accounts, found, next, [before] + next.cursors, [sigs] + next.pages);
        accounts := accounts + found;
        total := total + |sigs|;
        before := Some(sigs[|sigs| - 1].signature);
      }
    }

    /**
     * `scanWalletHistory`: the scan, plus one `scan` ledger entry on success. A failed page
     * request propagates and writes nothing.
     */
    method ScanWalletHistory(rpc: Rpc, limit: nat, logger: Ledger.LoggerService, now: int) returns (outcome: ScanOutcome)
      modifies logger
      ensures outcome == OutcomeOf(ScanFrom(rpc, limit, operator, koraIdentifiers, None, 0))
      ensures outcome.ScanFailed? ==> logger.logs == old(logger.logs) && logger.logFile == old(logger.logFile)
                                      && logger.metrics == old(logger.metrics)
      ensures outcome.Scanned? ==>
        var record := Ledger.EntryRecord(Ledger.Stamp(ScanEntry(outcome.total, |outcome.accounts|), now));
        && logger.logs == old(logger.logs) + [record]
        && logger.logFile == Ledger.Appended(old(logger.logFile), Ledger.Json(record))
        && logger.metrics == old(logger.metrics)
    {
      outcome := ScanHistory(rpc, limit);
      if outcome.Scanned? {
        logger.Log(ScanEntry(outcome.total, |outcome.accounts|), now);
      }
    }
  }
}
