/**
 * The ledger and metrics of bot/src/services/logger.service.ts. `LoggerService` keeps the
 * in-memory log and metrics and appends one JSON line per entry to the log file. The file is
 * `None` while it does not exist (or cannot be read); each line either parses back to the
 * record that was written or is malformed.
 */
module Ledger {
  import opened Wrappers
  import opened Types

  /** The fields a caller passes to `log` (a `LogEntry` without its timestamp). */
  datatype LogInput = LogInput(
    account: string,
    action: Action,
    status: Status,
    sol: Option<int>,
    reason: Option<string>,
    signature: Option<string>)

  /** The entry `log` records: the caller's fields plus the clock reading `now`. */
  function Stamp(e: LogInput, now: int): (entry: LogEntry)
    ensures entry.timestamp == now && entry.account == e.account && entry.action == e.action
    ensures entry.status == e.status && entry.sol == e.sol && entry.reason == e.reason
    ensures entry.signature == e.signature
  {
    LogEntry(now, e.account, e.action, e.status, e.sol, e.reason, e.signature)
  }

  /** The `type: 'cycle_summary'` record `logReclaimCycle` writes. */
  datatype CycleSummary = CycleSummary(
    timestamp: int,
    scanned: int,
    eligible: int,
    reclaimed: int,
    totalAmount: int)

  /** A JSON object found in the log file: an entry or a cycle summary. */
  datatype Record = EntryRecord(entry: LogEntry) | SummaryRecord(summary: CycleSummary)

  /** One line of the log file. */
  datatype FileLine = Json(record: Record) | Malformed

  /** The lines of the log file; a missing file has none. */
  function LinesOf(file: Option<seq<FileLine>>): seq<FileLine> {
    file.GetOr([])
  }

  /** `fs.appendFile`: creates the file when missing, then appends one line. */
  function Appended(file: Option<seq<FileLine>>, line: FileLine): (f: Option<seq<FileLine>>)
    ensures f.Some? && f.value == LinesOf(file) + [line]
  {
    Some(LinesOf(file) + [line])
  }

  /** The file after one `fs.appendFile` per line, in order. */
  function AppendedAll(file: Option<seq<FileLine>>, lines: seq<FileLine>): Option<seq<FileLine>>
    decreases |lines|
  {
    if lines == [] then file
    else Appended(AppendedAll(file, lines[..|lines| - 1]), lines[|lines| - 1])
  }

  lemma AppendedAllSnoc(file: Option<seq<FileLine>>, lines: seq<FileLine>, line: FileLine)
    ensures AppendedAll(file, lines + [line]) == Appended(AppendedAll(file, lines), line)
  {
    assert (lines + [line])[..|lines|] == lines;
  }

  /** Appending lines one by one leaves the old lines followed by the new ones. */
  lemma {:induction false} AppendedAllLines(file: Option<seq<FileLine>>, lines: seq<FileLine>)
    ensures lines == [] ==> AppendedAll(file, lines) == file
    ensures lines != [] ==> AppendedAll(file, lines) == Some(LinesOf(file) + lines)
    decreases |lines|
  {
    if lines != [] {
      var front := lines[..|lines| - 1];
      AppendedAllLines(file, front);
      assert front + [lines[|lines| - 1]] == lines;
      assert LinesOf(AppendedAll(file, front)) + [lines[|lines| - 1]] == LinesOf(file) + lines;
    }
  }

  /** Appending two runs of lines is appending the whole run. */
  lemma {:induction false} AppendedAllConcat(file: Option<seq<FileLine>>, a: seq<FileLine>, b: seq<FileLine>)
    ensures AppendedAll(AppendedAll(file, a), b) == AppendedAll(file, a + b)
    decreases |b|
  {
    if b == [] {
      assert a + b == a;
    } else {
      var init := b[..|b| - 1];
      AppendedAllConcat(file, a, init);
      assert (a + b)[..|a + b| - 1] == a + init;
      assert (a + b)[|a + b| - 1] == b[|b| - 1];
    }
  }

  /** The JSON lines that serialise some records. */
  function JsonLines(records: seq<Record>): (lines: seq<FileLine>)
    ensures |lines| == |records|
  {
    seq(|records|, k requires 0 <= k < |records| => Json(records[k]))
  }

  lemma JsonLinesConcat(a: seq<Record>, b: seq<Record>)
    ensures JsonLines(a + b) == JsonLines(a) + JsonLines(b)
  {
  }

  /** Writing one record and then some more is writing them all. */
  lemma AppendedThenAll(file: Option<seq<FileLine>>, first: Record, rest: seq<Record>)
    ensures AppendedAll(Appended(file, Json(first)), JsonLines(rest)) == AppendedAll(file, JsonLines([first] + rest))
  {
    assert AppendedAll(file, [Json(first)]) == Appended(file, Json(first));
    AppendedAllConcat(file, [Json(first)], JsonLines(rest));
    JsonLinesConcat([first], rest);
    assert JsonLines([first]) == [Json(first)];
  }

  /** Writing one more record is appending its line to the file. */
  lemma AppendedRecord(file: Option<seq<FileLine>>, records: seq<Record>, record: Record)
    ensures AppendedAll(file, JsonLines(records + [record])) == Appended(AppendedAll(file, JsonLines(records)), Json(record))
  {
    JsonLinesConcat(records, [record]);
    AppendedAllSnoc(file, JsonLines(records), Json(record));
  }

  /** The records `loadLogsFromFile` keeps: every line that parses, in file order. */
  function Parseable(lines: seq<FileLine>): (records: seq<Record>)
    ensures |records| <= |lines|
  {
    if lines == [] then []
    else (if lines[0].Json? then [lines[0].record] else []) + Parseable(lines[1..])
  }

  /** Parsing a file is parsing its parts. */
  lemma {:induction false} ParseableAppend(a: seq<FileLine>, b: seq<FileLine>)
    ensures Parseable(a + b) == Parseable(a) + Parseable(b)
  {
    if a == [] {
      assert a + b == b;
    } else {
      assert (a + b)[0] == a[0] && (a + b)[1..] == a[1..] + b;
      ParseableAppend(a[1..], b);
    }
  }

  /** A file of malformed lines only loads as an empty log. */
  lemma {:induction false} MalformedLinesDropped(lines: seq<FileLine>)
    requires forall i :: 0 <= i < |lines| ==> lines[i].Malformed?
    ensures Parseable(lines) == []
  {
    if lines != [] {
      MalformedLinesDropped(lines[1..]);
    }
  }

  /** A file of well-formed lines loads as exactly the records written to it. */
  lemma {:induction false} JsonLinesKept(lines: seq<FileLine>)
    requires forall i :: 0 <= i < |lines| ==> lines[i].Json?
    ensures |Parseable(lines)| == |lines|
    ensures forall i :: 0 <= i < |lines| ==> Parseable(lines)[i] == lines[i].record
  {
    if lines != [] {
      JsonLinesKept(lines[1..]);
    }
  }

  /** Reloading a file that had records appended gives its old records followed by those. */
  lemma AppendedRecordsReload(file: Option<seq<FileLine>>, records: seq<Record>)
    ensures Parseable(LinesOf(AppendedAll(file, JsonLines(records)))) == Parseable(LinesOf(file)) + records
  {
    var lines := JsonLines(records);
    AppendedAllLines(file, lines);
    JsonLinesKept(lines);
    assert Parseable(lines) == records;
    if lines != [] {
      ParseableAppend(LinesOf(file), lines);
    }
  }

  /** Does logging `e` move the reclaim counters? (`action === 'reclaim' && status === 'success' && sol`) */
  predicate CountsAsReclaim(e: LogInput) {
    e.action == Reclaim && e.status == Success && e.sol.Some? && e.sol.value != 0
  }

  /** The metrics after `log(e)`. */
  function AfterLog(m: SystemMetrics, e: LogInput): (r: SystemMetrics)
    ensures CountsAsReclaim(e) ==>
              r.totalReclaimed == m.totalReclaimed + e.sol.value && r.accountsReclaimed == m.accountsReclaimed + 1
    ensures r == m.(totalReclaimed := r.totalReclaimed, accountsReclaimed := r.accountsReclaimed)
    ensures !CountsAsReclaim(e) ==> r == m
  {
    if CountsAsReclaim(e) then
      m.(totalReclaimed := m.totalReclaimed + e.sol.value, accountsReclaimed := m.accountsReclaimed + 1)
    else m
  }

  /** The amount a ledger records as reclaimed: the folding the metrics stand in for. */
  function ReclaimedInLedger(records: seq<Record>): int {
    if records == [] then 0
    else
      var r := records[0];
      (if r.EntryRecord? && r.entry.action == Reclaim && r.entry.status == Success
          && r.entry.sol.Some? && r.entry.sol.value != 0
       then r.entry.sol.value else 0)
      + ReclaimedInLedger(records[1..])
  }

  /** The number of reclaims a ledger records. */
  function ReclaimsInLedger(records: seq<Record>): nat {
    if records == [] then 0
    else
      var r := records[0];
      (if r.EntryRecord? && r.entry.action == Reclaim && r.entry.status == Success
          && r.entry.sol.Some? && r.entry.sol.value != 0
       then 1 else 0)
      + ReclaimsInLedger(records[1..])
  }

  /** Appending one entry to a ledger adds exactly what `log` adds to the metrics. */
  lemma {:induction false} LedgerFoldAppend(records: seq<Record>, e: LogInput, now: int)
    ensures ReclaimedInLedger(records + [EntryRecord(Stamp(e, now))])
            == ReclaimedInLedger(records) + (AfterLog(ZERO_METRICS, e).totalReclaimed)
    ensures ReclaimsInLedger(records + [EntryRecord(Stamp(e, now))])
            == ReclaimsInLedger(records) + AfterLog(ZERO_METRICS, e).accountsReclaimed
  {
    if records != [] {
      assert (records + [EntryRecord(Stamp(e, now))])[1..] == records[1..] + [EntryRecord(Stamp(e, now))];
      LedgerFoldAppend(records[1..], e, now);
    }
  }

  const ZERO_METRICS: SystemMetrics := SystemMetrics(0, 0, 0, 0, None, 0)

  /** A `Partial<SystemMetrics>`: `Some` marks a supplied field. */
  datatype MetricsUpdate = MetricsUpdate(
    totalRentLocked: Option<int>,
    reclaimable: Option<int>,
    accountsMonitored: Option<int>,
    totalReclaimed: Option<int>,
    lastScanTime: Option<Option<int>>,
    accountsReclaimed: Option<int>)

  const NO_UPDATE: MetricsUpdate := MetricsUpdate(None, None, None, None, None, None)

  /** `{ ...metrics, ...updates }`. */
  function Updated(m: SystemMetrics, u: MetricsUpdate): SystemMetrics {
    SystemMetrics(
      u.totalRentLocked.GetOr(m.totalRentLocked),
      u.reclaimable.GetOr(m.reclaimable),
      u.accountsMonitored.GetOr(m.accountsMonitored),
      u.totalReclaimed.GetOr(m.totalReclaimed),
      u.lastScanTime.GetOr(m.lastScanTime),
      u.accountsReclaimed.GetOr(m.accountsReclaimed))
  }

  /** Supplied fields take the new value; every other field keeps its old one. */
  lemma UpdatedOverwritesOnlySupplied(m: SystemMetrics, u: MetricsUpdate)
    ensures u.totalRentLocked.None? ==> Updated(m, u).totalRentLocked == m.totalRentLocked
    ensures u.reclaimable.None? ==> Updated(m, u).reclaimable == m.reclaimable
    ensures u.accountsMonitored.None? ==> Updated(m, u).accountsMonitored == m.accountsMonitored
    ensures u.totalReclaimed.None? ==> Updated(m, u).totalReclaimed == m.totalReclaimed
    ensures u.lastScanTime.None? ==> Updated(m, u).lastScanTime == m.lastScanTime
    ensures u.accountsReclaimed.None? ==> Updated(m, u).accountsReclaimed == m.accountsReclaimed
    ensures u.accountsMonitored.Some? ==> Updated(m, u).accountsMonitored == u.accountsMonitored.value
    ensures u.reclaimable.Some? ==> Updated(m, u).reclaimable == u.reclaimable.value
    ensures u.lastScanTime.Some? ==> Updated(m, u).lastScanTime == u.lastScanTime.value
    ensures u.totalRentLocked.Some? ==> Updated(m, u).totalRentLocked == u.totalRentLocked.value
    ensures u.totalReclaimed.Some? ==> Updated(m, u).totalReclaimed == u.totalReclaimed.value
    ensures u.accountsReclaimed.Some? ==> Updated(m, u).accountsReclaimed == u.accountsReclaimed.value
  {
  }

  /** Applying the same update twice is applying it once; the empty update changes nothing. */
  lemma UpdatedIdempotent(m: SystemMetrics, u: MetricsUpdate)
    ensures Updated(Updated(m, u), u) == Updated(m, u)
    ensures Updated(m, NO_UPDATE) == m
  {
  }

  /** `this.logs.slice(start)` with JavaScript's rules for negative and oversized starts. */
  function JsSliceFrom<T>(s: seq<T>, start: int): (r: seq<T>)
    ensures start < 0 ==> r == s[if |s| + start < 0 then 0 else |s| + start..]
    ensures start >= 0 ==> r == s[if start > |s| then |s| else start..]
  {
    var k := if start < 0 then (if |s| + start < 0 then 0 else |s| + start)
             else (if start > |s| then |s| else start);
    s[k..]
  }

  function Min(a: int, b: int): int {
    if a <= b then a else b
  }

  class LoggerService {
    var logs: seq<Record>
    var metrics: SystemMetrics
    var logFile: Option<seq<FileLine>>

    /** The in-memory log is what reloading the file would give. */
    predicate Mirrors()
      reads this
    {
      logs == Parseable(LinesOf(logFile))
    }

    /** A fresh service over an existing (or missing) log file: empty log, zero metrics. */
    constructor (file: Option<seq<FileLine>>)
      ensures logs == [] && metrics == ZERO_METRICS && logFile == file
    {
      logs := [];
      metrics := ZERO_METRICS;
      logFile := file;
    }

    /**
     * `log`: append one stamped entry to memory and to the file, and count a successful
     * reclaim that carries a non-zero amount. Earlier entries are unchanged.
     */
    method Log(e: LogInput, now: int)
      modifies this
      ensures logs == old(logs) + [EntryRecord(Stamp(e, now))]
      ensures logFile == Appended(old(logFile), Json(EntryRecord(Stamp(e, now))))
      ensures metrics == AfterLog(old(metrics), e)
      ensures old(Mirrors()) ==> Mirrors()
      ensures metrics.totalReclaimed - ReclaimedInLedger(logs)
              == old(metrics.totalReclaimed - ReclaimedInLedger(logs))
      ensures metrics.accountsReclaimed - ReclaimsInLedger(logs)
              == old(metrics.accountsReclaimed - ReclaimsInLedger(logs))
    {
      var entry := Stamp(e, now);
      LedgerFoldAppend(logs, e, now);
      ParseableAppend(LinesOf(logFile), [Json(EntryRecord(entry))]);
      logs := logs + [EntryRecord(entry)];
      logFile := Appended(logFile, Json(EntryRecord(entry)));
      if e.action == Reclaim && e.status == Success && e.sol.Some? && e.sol.value != 0 {
        metrics := metrics.(totalReclaimed := metrics.totalReclaimed + e.sol.value,
                            accountsReclaimed := metrics.accountsReclaimed + 1);
      }
    }

    /**
     * `getLogs(limit)` = `logs.slice(-limit)`: the last `limit` entries for a positive limit,
     * every entry for 0 (since -0 is 0), and all but the first `-limit` for a negative one.
     */
    method GetLogs(limit: int) returns (r: seq<Record>)
      ensures limit >= 1 ==> |r| == Min(limit, |logs|) && r == logs[|logs| - |r|..]
      ensures limit == 0 ==> r == logs
      ensures limit < 0 ==> r == logs[Min(-limit, |logs|)..]
    {
      r := JsSliceFrom(logs, -limit);
    }

    /** `updateMetrics`. */
    method UpdateMetrics(u: MetricsUpdate)
      modifies this
      ensures metrics == Updated(old(metrics), u)
      ensures logs == old(logs) && logFile == old(logFile)
    {
      metrics := Updated(metrics, u);
    }

    /** `getMetrics`: a copy of the snapshot. */
    method GetMetrics() returns (m: SystemMetrics)
      ensures m == metrics
    {
      m := metrics;
    }

    /**
     * `logReclaimCycle`: one summary line goes to the file; neither the in-memory log nor
     * the metrics change, so the memory no longer mirrors the file.
     */
    method LogReclaimCycle(scanned: int, eligible: int, reclaimed: int, totalAmount: int, now: int)
      modifies this
      ensures logFile == Appended(old(logFile), Json(SummaryRecord(CycleSummary(now, scanned, eligible, reclaimed, totalAmount))))
      ensures logs == old(logs) && metrics == old(metrics)
      ensures Parseable(LinesOf(logFile))
              == Parseable(LinesOf(old(logFile))) + [SummaryRecord(CycleSummary(now, scanned, eligible, reclaimed, totalAmount))]
    {
      var line := Json(SummaryRecord(CycleSummary(now, scanned, eligible, reclaimed, totalAmount)));
      ParseableAppend(LinesOf(logFile), [line]);
      logFile := Appended(logFile, line);
    }

    /**
     * `loadLogsFromFile`: the parseable lines in file order, malformed lines dropped,
     * nothing when the file is missing. Metrics are not recomputed.
     */
    method LoadLogsFromFile()
      modifies this
      ensures logFile.None? ==> logs == []
      ensures logFile.Some? ==> logs == Parseable(logFile.value)
      ensures Mirrors()
      ensures logFile == old(logFile) && metrics == old(metrics)
    {
      match logFile
      case None => logs := [];
      case Some(lines) => logs := Parseable(lines);
    }
  }
}
