/**
 * The result-analysis pipeline: parse the benchmark result files found under
 * the results directory, aggregate one row per result file, order the rows
 * for the CSV files, group them per workload, and prepare one chart series
 * per queue. The directory walk is an input sequence, files are given as their
 * lines, and what would be written to disk (CSV files, charts) is returned.
 */
module AnalyzeResults {
  import opened Results
  import opened Text
  import opened Decimal
  import opened Ordering
  import opened Folds

  // ---------------- Configuration ----------------

  const RESULTS_DIR := "../results"
  const OUTPUT_ROOT := "../final_analysis_output"
  const CSV_DIR := OUTPUT_ROOT + "/csv"
  const PLOTS_DIR := OUTPUT_ROOT + "/plots"

  /** Only these thread counts are analysed. */
  const VALID_THREAD_COUNTS: set<nat> := {4, 8, 16}

  /** The token that separates a queue name from the rest of a result file name. */
  const RESULTS_SEPARATOR := "_results_"

  /** The five metrics of a result file, in the order the plots are drawn. */
  datatype Metric = RuntimeMs | ThroughputReqsPerSec | LatencyMs | AvgEnqueueMs | AvgDequeueMs {

    /** The metric's key in the row dictionaries and CSV header. */
    function Name(): string {
      match this
      case RuntimeMs => "runtime_ms"
      case ThroughputReqsPerSec => "throughput_reqs_per_sec"
      case LatencyMs => "latency_ms"
      case AvgEnqueueMs => "avg_enqueue_ms"
      case AvgDequeueMs => "avg_dequeue_ms"
    }

    /** The plot sub-folder of the metric. */
    function Subdir(): string {
      match this
      case RuntimeMs => "runtime"
      case ThroughputReqsPerSec => "throughput"
      case LatencyMs => "latency"
      case AvgEnqueueMs => "enqueue"
      case AvgDequeueMs => "dequeue"
    }

    /** The y-axis label the charts of the metric are drawn with. */
    function Label(): string {
      match this
      case RuntimeMs => "Runtime (ms)"
      case ThroughputReqsPerSec => "Throughput (req/s)"
      case LatencyMs => "Latency (ms)"
      case AvgEnqueueMs => "Avg Enqueue Time (ms)"
      case AvgDequeueMs => "Avg Dequeue Time (ms)"
    }
  }

  const METRICS: seq<Metric> := [RuntimeMs, ThroughputReqsPerSec, LatencyMs, AvgEnqueueMs, AvgDequeueMs]

  /** The five values of one parsed result file, all present. */
  datatype Metrics = Metrics(
    runtimeMs: real, throughputReqsPerSec: real, latencyMs: real,
    avgEnqueueMs: real, avgDequeueMs: real)
  {
    function Get(m: Metric): real {
      match m
      case RuntimeMs => runtimeMs
      case ThroughputReqsPerSec => throughputReqsPerSec
      case LatencyMs => latencyMs
      case AvgEnqueueMs => avgEnqueueMs
      case AvgDequeueMs => avgDequeueMs
    }
  }

  /** One aggregated row: the directory's configuration, the queue and its metrics. */
  datatype Row = Row(threads: nat, requestsPerClient: nat, queue: string, metrics: Metrics)

  /** Why a result file could not be parsed; each aborts the whole run. */
  datatype ParseError =
    | WrongTokenCount(text: string)   // a time value that is not exactly "<value> <unit>"
    | NotANumber(token: string)       // float() refused the token
    | UnknownTimeUnit(unit: string)
    | MissingToken(line: string)      // the line has no token at the index read
    | MissingMetrics                  // one of the five metrics never appeared

  // ---------------- Parsing helpers ----------------

  /** The three units a time value may carry. */
  predicate IsTimeUnit(unit: string) {
    unit == "ms" || unit == "\U{B5}s" || unit == "ns"
  }

  /**
   * parse_time_to_ms: "<value> <unit>" in milliseconds. The value is checked
   * before the unit, so a bad number is reported even when the unit is bad too.
   */
  function ParseTimeToMs(valueWithUnit: string): (r: Result<real, ParseError>)
    ensures var w := Words(Strip(valueWithUnit));
      && (r.Ok? <==> |w| == 2 && ParseDecimal(w[0]).Some? && IsTimeUnit(w[1]))
      && (r.Ok? && w[1] == "ms" ==> r.value == ParseDecimal(w[0]).value)
      && (r.Ok? && w[1] == "\U{B5}s" ==> r.value == ParseDecimal(w[0]).value / 1000.0)
      && (r.Ok? && w[1] == "ns" ==> r.value == ParseDecimal(w[0]).value / 1000000.0)
      && (|w| != 2 ==> r == Err(WrongTokenCount(Strip(valueWithUnit))))
      && (|w| == 2 && ParseDecimal(w[0]).None? ==> r == Err(NotANumber(w[0])))
      && (|w| == 2 && ParseDecimal(w[0]).Some? && !IsTimeUnit(w[1]) ==> r == Err(UnknownTimeUnit(w[1])))
  {
    var text := Strip(valueWithUnit);
    var parts := Words(text);
    if |parts| != 2 then Err(WrongTokenCount(text))
    else
      match ParseDecimal(parts[0])
      case None => Err(NotANumber(parts[0]))
      case Some(value) =>
        if parts[1] == "ms" then Ok(value)
        else if parts[1] == "\U{B5}s" then Ok(value / 1000.0)
        else if parts[1] == "ns" then Ok(value / 1000000.0)
        else Err(UnknownTimeUnit(parts[1]))
  }

  /**
   * parse_threads_and_reqs: the full match of threads_(\d+)_(\d+)_reqPerClient,
   * or None. A digit run cannot contain '_', so the regex has one way to match.
   */
  function ParseThreadsAndReqs(dirname: string): Option<(nat, nat)> {
    if !StartsWith(dirname, "threads_") then None else ParseCounts(dirname[8..])
  }

  /** The rest of the pattern after "threads_": digits, '_', then the requests part. */
  function ParseCounts(rest: string): Option<(nat, nat)> {
    var a := DigitRun(rest);
    if a == 0 || a == |rest| || rest[a] != '_' then None
    else
      match ParseReqs(rest[a + 1..])
      case None => None
      case Some(reqs) => Some((DigitsValue(rest[..a]), reqs))
  }

  /** The requests part of the pattern: digits, then exactly "_reqPerClient". */
  function ParseReqs(rest: string): Option<nat> {
    var b := DigitRun(rest);
    if b == 0 || rest[b..] != "_reqPerClient" then None else Some(DigitsValue(rest[..b]))
  }

  /** The directory pattern, with the digit strings the two groups capture. */
  ghost predicate DirPattern(dirname: string, threadDigits: string, reqDigits: string) {
    && threadDigits != [] && AllDigits(threadDigits)
    && reqDigits != [] && AllDigits(reqDigits)
    && dirname == "threads_" + threadDigits + "_" + reqDigits + "_reqPerClient"
  }

  /** Every name of the pattern parses to the two numbers it embeds, leading zeros included. */
  lemma {:induction false} PatternParses(threadDigits: string, reqDigits: string)
    requires threadDigits != [] && AllDigits(threadDigits)
    requires reqDigits != [] && AllDigits(reqDigits)
    ensures ParseThreadsAndReqs("threads_" + threadDigits + "_" + reqDigits + "_reqPerClient")
         == Some((DigitsValue(threadDigits), DigitsValue(reqDigits)))
  {
    var tail := "_reqPerClient";
    var name := "threads_" + threadDigits + "_" + reqDigits + tail;
    SplitConcat("threads_", threadDigits, "_", reqDigits, tail);
    var rest := threadDigits + ("_" + (reqDigits + tail));
    assert StartsWith(name, "threads_") && name[8..] == rest by {
      assert name == "threads_" + rest;
    }
    CountsParse(threadDigits, reqDigits);
  }

  lemma {:induction false} CountsParse(threadDigits: string, reqDigits: string)
    requires threadDigits != [] && AllDigits(threadDigits)
    requires reqDigits != [] && AllDigits(reqDigits)
    ensures ParseCounts(threadDigits + ("_" + (reqDigits + "_reqPerClient")))
         == Some((DigitsValue(threadDigits), DigitsValue(reqDigits)))
  {
    var after := "_" + (reqDigits + "_reqPerClient");
    var rest := threadDigits + after;
    DigitRunOf(threadDigits, after);
    var a := |threadDigits|;
    assert rest[a] == '_' && rest[..a] == threadDigits && rest[a + 1..] == reqDigits + "_reqPerClient";
    ReqsParse(reqDigits);
  }

  lemma {:induction false} ReqsParse(reqDigits: string)
    requires reqDigits != [] && AllDigits(reqDigits)
    ensures ParseReqs(reqDigits + "_reqPerClient") == Some(DigitsValue(reqDigits))
  {
    var tail := "_reqPerClient";
    DigitRunOf(reqDigits, tail);
    assert (reqDigits + tail)[..|reqDigits|] == reqDigits && (reqDigits + tail)[|reqDigits|..] == tail;
  }

  /** Only names of the pattern parse, and they parse to the numbers they embed. */
  lemma {:induction false} ParsedMatchesPattern(dirname: string)
    requires ParseThreadsAndReqs(dirname).Some?
    ensures exists threadDigits, reqDigits ::
      (DirPattern(dirname, threadDigits, reqDigits)
       && ParseThreadsAndReqs(dirname) == Some((DigitsValue(threadDigits), DigitsValue(reqDigits))))
  {
    var rest := dirname[8..];
    var a := DigitRun(rest);
    var rest2 := rest[a + 1..];
    var b := DigitRun(rest2);
    var threadDigits, reqDigits, tail := rest[..a], rest2[..b], "_reqPerClient";
    CountsShape(rest);
    ReqsShape(rest2);
    assert rest == threadDigits + ("_" + (reqDigits + tail));
    assert dirname == "threads_" + rest by {
      assert dirname == dirname[..8] + dirname[8..];
    }
    SplitConcat("threads_", threadDigits, "_", reqDigits, tail);
    assert DirPattern(dirname, threadDigits, reqDigits);
  }

  /** What a parsed rest of the name consists of. */
  lemma {:induction false} CountsShape(rest: string)
    requires ParseCounts(rest).Some?
    ensures var a := DigitRun(rest);
      && 0 < a < |rest|
      && rest == rest[..a] + ("_" + rest[a + 1..])
      && ParseReqs(rest[a + 1..]).Some?
      && ParseCounts(rest) == Some((DigitsValue(rest[..a]), ParseReqs(rest[a + 1..]).value))
  {
    var a := DigitRun(rest);
    assert rest == rest[..a] + rest[a..];
    assert rest[a..] == [rest[a]] + rest[a + 1..];
  }

  lemma {:induction false} ReqsShape(rest: string)
    requires ParseReqs(rest).Some?
    ensures var b := DigitRun(rest);
      && 0 < b
      && rest == rest[..b] + "_reqPerClient"
      && ParseReqs(rest) == Some(DigitsValue(rest[..b]))
  {
    var b := DigitRun(rest);
    assert rest == rest[..b] + rest[b..];
  }

  lemma {:induction false} SplitConcat(p: string, a: string, q: string, b: string, t: string)
    ensures p + (a + (q + (b + t))) == p + a + q + b + t
  {
  }

  /**
   * parse_queue_name: the text before the first "_results_", or the whole
   * name when there is none.
   */
  function ParseQueueName(filename: string): (q: string)
    ensures StartsWith(filename, q)
    ensures !Contains(q, RESULTS_SEPARATOR)
    ensures Contains(filename, RESULTS_SEPARATOR) ==> OccursAt(filename, RESULTS_SEPARATOR, |q|)
    ensures forall j :: 0 <= j < |q| ==> !OccursAt(filename, RESULTS_SEPARATOR, j)
    ensures !Contains(filename, RESULTS_SEPARATOR) ==> q == filename
  {
    match Find(filename, RESULTS_SEPARATOR)
    case None => filename
    case Some(i) =>
      var q := filename[..i];
      assert forall j :: 0 <= j ==> OccursAt(q, RESULTS_SEPARATOR, j) ==> OccursAt(filename, RESULTS_SEPARATOR, j) by {
        forall j | 0 <= j && OccursAt(q, RESULTS_SEPARATOR, j)
          ensures OccursAt(filename, RESULTS_SEPARATOR, j)
        {
          OccursInPrefix(filename, RESULTS_SEPARATOR, i, j);
        }
      }
      q
  }

  // ---------------- Result files ----------------

  /** The prefix tests of parse_result_file, in the order of its if/elif chain. */
  function Classify(line: string): Option<Metric> {
    if StartsWith(line, "Total runtime:") then Some(RuntimeMs)
    else if StartsWith(line, "Avg enqueue time:") then Some(AvgEnqueueMs)
    else if StartsWith(line, "Avg dequeue time:") then Some(AvgDequeueMs)
    else if StartsWith(line, "Avg end-to-end request latency:") then Some(LatencyMs)
    else if StartsWith(line, "Throughput:") then Some(ThroughputReqsPerSec)
    else None
  }

  /** float(token). */
  function NumberOf(token: string): Result<real, ParseError> {
    match ParseDecimal(token)
    case None => Err(NotANumber(token))
    case Some(v) => Ok(v)
  }

  /**
   * The value a stripped line labelled with metric m holds: the third word for
   * the runtime, the second for the throughput, and the time value after the
   * label for the three averages.
   */
  function ExtractValue(m: Metric, line: string): Result<real, ParseError> {
    var w := Words(line);
    match m
    case RuntimeMs => if |w| > 2 then NumberOf(w[2]) else Err(MissingToken(line))
    case ThroughputReqsPerSec => if |w| > 1 then NumberOf(w[1]) else Err(MissingToken(line))
    case AvgEnqueueMs => ParseTimeToMs(JoinSpace(Drop(w, 3)))
    case AvgDequeueMs => ParseTimeToMs(JoinSpace(Drop(w, 3)))
    case LatencyMs => ParseTimeToMs(JoinSpace(Drop(w, 4)))
  }

  /** The metric a raw line of a result file is labelled with, after stripping it. */
  function LineLabel(raw: string): Option<Metric> {
    Classify(Strip(raw))
  }

  /** The value a raw line labelled m holds. */
  function LineValue(m: Metric, raw: string): Result<real, ParseError> {
    ExtractValue(m, Strip(raw))
  }

  /** The metrics dictionary while the file is read: a metric is absent until a line sets it. */
  type Partial = map<Metric, real>

  /** The loop over the lines, stopping at the first error. */
  function ScanLines(lines: seq<string>): Result<Partial, ParseError> {
    KeyedScan(lines, LineLabel, LineValue)
  }

  /** The final check that no metric is still None. */
  function Complete(acc: Partial): Result<Metrics, ParseError> {
    if RuntimeMs in acc && ThroughputReqsPerSec in acc && LatencyMs in acc
      && AvgEnqueueMs in acc && AvgDequeueMs in acc
    then Ok(Metrics(acc[RuntimeMs], acc[ThroughputReqsPerSec], acc[LatencyMs],
                    acc[AvgEnqueueMs], acc[AvgDequeueMs]))
    else Err(MissingMetrics)
  }

  /** The record is built exactly when all five metrics are set, and it holds their values. */
  lemma {:induction false} CompleteKeepsValues(acc: Partial)
    ensures Complete(acc).Ok? <==> forall m: Metric :: m in acc
    ensures Complete(acc).Ok? ==> forall m: Metric :: Complete(acc).value.Get(m) == acc[m]
  {
    forall m: Metric ensures Complete(acc).Ok? ==> m in acc && Complete(acc).value.Get(m) == acc[m] {
      match m {
        case RuntimeMs =>
        case ThroughputReqsPerSec =>
        case LatencyMs =>
        case AvgEnqueueMs =>
        case AvgDequeueMs =>
      }
    }
  }

  /** What parse_result_file returns or raises for a file with these lines. */
  function ResultFileValue(lines: seq<string>): Result<Metrics, ParseError> {
    match ScanLines(lines)
    case Err(e) => Err(e)
    case Ok(acc) => Complete(acc)
  }

  /** parse_result_file: reads the lines in order and fills the metrics dictionary. */
  method ParseResultFile(lines: seq<string>) returns (r: Result<Metrics, ParseError>)
    ensures r == ResultFileValue(lines)
  {
    var metrics: Partial := map[];
    for i := 0 to |lines|
      invariant ScanLines(lines[..i]) == Ok(metrics)
    {
      assert lines[..i + 1][..i] == lines[..i];
      assert lines[..i + 1][i] == lines[i];
      var line := Strip(lines[i]);
      var kind := Classify(line);
      if kind.Some? {
        var value := ExtractValue(kind.value, line);
        if value.Err? {
          KeyedScanErrorSticks(lines, i + 1, LineLabel, LineValue);
          return Err(value.error);
        }
        metrics := metrics[kind.value := value.value];
      }
    }
    assert lines[..|lines|] == lines;
    r := Complete(metrics);
  }

  /** When several lines carry a label, the last one decides the value. */
  lemma {:induction false} LastOccurrenceWins(lines: seq<string>, ms: Metrics, m: Metric, i: int)
    requires ResultFileValue(lines) == Ok(ms)
    requires LastLabelled(lines, LineLabel, m, i)
    ensures LineValue(m, lines[i]) == Ok(ms.Get(m))
  {
    KeyedScanLastValue(lines, LineLabel, LineValue, ScanLines(lines).value, m, i);
    CompleteKeepsValues(ScanLines(lines).value);
  }

  /** A file in which some metric has no labelled line is rejected, never returned half filled. */
  lemma {:induction false} MissingLabelFails(lines: seq<string>, m: Metric)
    requires !HasLabel(lines, LineLabel, m)
    ensures ResultFileValue(lines).Err?
  {
    if ScanLines(lines).Ok? {
      KeyedScanDomain(lines, LineLabel, LineValue, ScanLines(lines).value, m);
      CompleteKeepsValues(ScanLines(lines).value);
    }
  }

  /** A file parses exactly when every labelled value parses and all five labels occur. */
  lemma {:induction false} ResultFileOk(lines: seq<string>)
    ensures ResultFileValue(lines).Ok? <==>
      LabelledValuesOk(lines, LineLabel, LineValue) && forall m: Metric :: HasLabel(lines, LineLabel, m)
  {
    KeyedScanOk(lines, LineLabel, LineValue);
    if ScanLines(lines).Ok? {
      var acc := ScanLines(lines).value;
      forall m: Metric ensures m in acc <==> HasLabel(lines, LineLabel, m) {
        KeyedScanDomain(lines, LineLabel, LineValue, acc, m);
      }
      CompleteKeepsValues(acc);
    }
  }

  /** A line without one of the five labels has no effect wherever it stands. */
  lemma {:induction false} UnlabelledLineIgnored(before: seq<string>, line: string, after: seq<string>)
    requires LineLabel(line).None?
    ensures ResultFileValue(before + [line] + after) == ResultFileValue(before + after)
  {
    KeyedScanSkip(before, line, after, LineLabel, LineValue);
    SameScanSameValue(before + [line] + after, before + after);
  }

  lemma {:induction false} SameScanSameValue(a: seq<string>, b: seq<string>)
    requires ScanLines(a) == ScanLines(b)
    ensures ResultFileValue(a) == ResultFileValue(b)
  {
  }

  // ---------------- Gathering ----------------

  /** A result file as the walk finds it: its base name and its lines. */
  datatype ResultFile = ResultFile(name: string, lines: seq<string>)

  /** One directory of the walk: its base name and the files directly inside it. */
  datatype WalkEntry = WalkEntry(dirname: string, files: seq<ResultFile>)

  /** A file that gather_results parses, with the configuration of its directory. */
  datatype Candidate = Candidate(threads: nat, requestsPerClient: nat, file: ResultFile)

  /** The file names gather_results parses: those that contain the separator. */
  predicate IsResultFileName(f: ResultFile) {
    Contains(f.name, RESULTS_SEPARATOR)
  }

  /** The files of a directory gather_results parses, in the order the walk lists them. */
  function ResultFiles(files: seq<ResultFile>): seq<ResultFile> {
    FilterKey(files, IsResultFileName, true)
  }

  /** The files tagged with their directory's configuration. */
  function Tagged(threads: nat, reqs: nat, files: seq<ResultFile>): (cs: seq<Candidate>)
    ensures |cs| == |files|
    ensures forall k :: 0 <= k < |files| ==> cs[k] == Candidate(threads, reqs, files[k])
  {
    seq(|files|, k requires 0 <= k < |files| => Candidate(threads, reqs, files[k]))
  }

  lemma {:induction false} TaggedConcat(threads: nat, reqs: nat, a: seq<ResultFile>, b: seq<ResultFile>)
    ensures Tagged(threads, reqs, a + b) == Tagged(threads, reqs, a) + Tagged(threads, reqs, b)
  {
    assert forall k :: 0 <= k < |a| ==> (a + b)[k] == a[k];
    assert forall k :: |a| <= k < |a| + |b| ==> (a + b)[k] == b[k - |a|];
  }

  /** The candidates of one directory: none unless its name parses and its thread count is valid. */
  function DirCandidates(d: WalkEntry): seq<Candidate> {
    match ParseThreadsAndReqs(d.dirname)
    case None => []
    case Some(cfg) =>
      if cfg.0 !in VALID_THREAD_COUNTS then [] else Tagged(cfg.0, cfg.1, ResultFiles(d.files))
  }

  /** The candidates of the whole walk, directory by directory. */
  function Candidates(walk: seq<WalkEntry>): seq<Candidate> {
    FlatMap(walk, DirCandidates)
  }

  /** The row of one candidate, or the error its file raises. */
  function CandidateRow(c: Candidate): Result<Row, ParseError> {
    match ResultFileValue(c.file.lines)
    case Err(e) => Err(e)
    case Ok(m) => Ok(Row(c.threads, c.requestsPerClient, ParseQueueName(c.file.name), m))
  }

  /** What gather_results returns or raises for the walk. */
  function GatherValue(walk: seq<WalkEntry>): Result<seq<Row>, ParseError> {
    Traverse(Candidates(walk), CandidateRow)
  }

  /** A failed walk reports the error of the first candidate file that does not parse. */
  lemma {:induction false} GatherFailsAtFirst(walk: seq<WalkEntry>)
    requires GatherValue(walk).Err?
    ensures exists k ::
      (0 <= k < |Candidates(walk)|
       && ResultFileValue(Candidates(walk)[k].file.lines) == Err(GatherValue(walk).error)
       && forall j :: 0 <= j < k ==> ResultFileValue(Candidates(walk)[j].file.lines).Ok?)
  {
    var cs := Candidates(walk);
    TraverseFirstError(cs, CandidateRow);
    var k :| 0 <= k < |cs| && CandidateRow(cs[k]) == Err(GatherValue(walk).error)
      && forall j :: 0 <= j < k ==> CandidateRow(cs[j]).Ok?;
    assert forall j :: 0 <= j < k ==> ResultFileValue(cs[j].file.lines).Ok? by {
      forall j | 0 <= j < k ensures ResultFileValue(cs[j].file.lines).Ok? {
        assert CandidateRow(cs[j]).Ok?;
      }
    }
  }

  /** The candidates up to file j of directory i, when that directory qualifies. */
  function CandidatesUpTo(walk: seq<WalkEntry>, i: nat, threads: nat, reqs: nat, j: nat): seq<Candidate>
    requires i < |walk| && j <= |walk[i].files|
  {
    Candidates(walk[..i]) + Tagged(threads, reqs, ResultFiles(walk[i].files[..j]))
  }

  /** The candidates of a qualifying directory. */
  lemma {:induction false} DirCandidatesOf(d: WalkEntry, threads: nat, reqs: nat)
    requires ParseThreadsAndReqs(d.dirname) == Some((threads, reqs)) && threads in VALID_THREAD_COUNTS
    ensures DirCandidates(d) == Tagged(threads, reqs, ResultFiles(d.files))
  {
  }

  /** The candidates of a qualifying directory, split at file j. */
  lemma {:induction false} DirCandidatesSplit(d: WalkEntry, threads: nat, reqs: nat, j: nat)
    requires j <= |d.files|
    requires ParseThreadsAndReqs(d.dirname) == Some((threads, reqs)) && threads in VALID_THREAD_COUNTS
    ensures DirCandidates(d) == Tagged(threads, reqs, ResultFiles(d.files[..j]))
                              + Tagged(threads, reqs, ResultFiles(d.files[j..]))
  {
    assert d.files[..j] + d.files[j..] == d.files;
    FilterKeyConcat(d.files[..j], d.files[j..], IsResultFileName, true);
    TaggedConcat(threads, reqs, ResultFiles(d.files[..j]), ResultFiles(d.files[j..]));
    DirCandidatesOf(d, threads, reqs);
  }

  /** The candidates of a walk begin with those up to any file of a qualifying directory. */
  lemma {:induction false} CandidatesPrefix(walk: seq<WalkEntry>, i: nat, threads: nat, reqs: nat, j: nat)
    requires i < |walk| && j <= |walk[i].files|
    requires ParseThreadsAndReqs(walk[i].dirname) == Some((threads, reqs)) && threads in VALID_THREAD_COUNTS
    ensures Candidates(walk) == CandidatesUpTo(walk, i, threads, reqs, j)
      + (Tagged(threads, reqs, ResultFiles(walk[i].files[j..])) + Candidates(walk[i + 1..]))
  {
    var files := walk[i].files;
    var a, b := Tagged(threads, reqs, ResultFiles(files[..j])), Tagged(threads, reqs, ResultFiles(files[j..]));
    var front, back := Candidates(walk[..i]), Candidates(walk[i + 1..]);
    DirCandidatesSplit(walk[i], threads, reqs, j);
    FlatMapSplit(walk, i, DirCandidates);
    ConcatRegroup(front, a, b, back);
  }

  /** An error in a file stops the walk with that error. */
  lemma {:induction false} GatherStopsAt(walk: seq<WalkEntry>, i: nat, threads: nat, reqs: nat, j: nat)
    requires i < |walk| && j <= |walk[i].files|
    requires ParseThreadsAndReqs(walk[i].dirname) == Some((threads, reqs)) && threads in VALID_THREAD_COUNTS
    requires Traverse(CandidatesUpTo(walk, i, threads, reqs, j), CandidateRow).Err?
    ensures GatherValue(walk) == Traverse(CandidatesUpTo(walk, i, threads, reqs, j), CandidateRow)
  {
    CandidatesPrefix(walk, i, threads, reqs, j);
    TraverseErrorSticks(CandidatesUpTo(walk, i, threads, reqs, j),
      Tagged(threads, reqs, ResultFiles(walk[i].files[j..])) + Candidates(walk[i + 1..]), CandidateRow);
  }

  /** File j joins the candidates exactly when its name has the separator. */
  lemma {:induction false} CandidatesUpToStep(walk: seq<WalkEntry>, i: nat, threads: nat, reqs: nat, j: nat)
    requires i < |walk| && j < |walk[i].files|
    ensures var f := walk[i].files[j];
      CandidatesUpTo(walk, i, threads, reqs, j + 1) == CandidatesUpTo(walk, i, threads, reqs, j)
        + (if IsResultFileName(f) then [Candidate(threads, reqs, f)] else [])
  {
    var files := walk[i].files;
    assert files[..j + 1] == files[..j] + [files[j]];
    FilterKeyAppend(files[..j], files[j], IsResultFileName, true);
    TaggedConcat(threads, reqs, ResultFiles(files[..j]),
      if IsResultFileName(files[j]) then [files[j]] else []);
  }

  /** One iteration of the loop over the files of a qualifying directory. */
  lemma {:induction false} GatherStep(walk: seq<WalkEntry>, i: nat, threads: nat, reqs: nat, j: nat, rows: seq<Row>)
    requires i < |walk| && j < |walk[i].files|
    requires Traverse(CandidatesUpTo(walk, i, threads, reqs, j), CandidateRow) == Ok(rows)
    ensures var f := walk[i].files[j];
      Traverse(CandidatesUpTo(walk, i, threads, reqs, j + 1), CandidateRow) ==
        if !IsResultFileName(f) then Ok(rows)
        else match CandidateRow(Candidate(threads, reqs, f))
          case Err(e) => Err(e)
          case Ok(row) => Ok(rows + [row])
  {
    CandidatesUpToStep(walk, i, threads, reqs, j);
    var f := walk[i].files[j];
    if IsResultFileName(f) {
      TraverseSnoc(CandidatesUpTo(walk, i, threads, reqs, j), Candidate(threads, reqs, f), CandidateRow);
    } else {
      assert CandidatesUpTo(walk, i, threads, reqs, j + 1) == CandidatesUpTo(walk, i, threads, reqs, j);
    }
  }

  /** After the last file of a qualifying directory come the candidates of the next directory. */
  lemma {:induction false} CandidatesDirDone(walk: seq<WalkEntry>, i: nat, threads: nat, reqs: nat)
    requires i < |walk|
    requires ParseThreadsAndReqs(walk[i].dirname) == Some((threads, reqs)) && threads in VALID_THREAD_COUNTS
    ensures Candidates(walk[..i + 1]) == CandidatesUpTo(walk, i, threads, reqs, |walk[i].files|)
  {
    assert walk[..i + 1][..i] == walk[..i];
    assert walk[i].files[..|walk[i].files|] == walk[i].files;
    DirCandidatesOf(walk[i], threads, reqs);
  }

  /** A directory that does not qualify adds no candidates. */
  lemma {:induction false} CandidatesDirSkipped(walk: seq<WalkEntry>, i: nat)
    requires i < |walk|
    requires ParseThreadsAndReqs(walk[i].dirname).None?
      || ParseThreadsAndReqs(walk[i].dirname).value.0 !in VALID_THREAD_COUNTS
    ensures Candidates(walk[..i + 1]) == Candidates(walk[..i])
  {
    assert walk[..i + 1][..i] == walk[..i];
  }

  /** gather_results: walks the directories and parses every qualifying file; an error aborts. */
  method GatherResults(walk: seq<WalkEntry>) returns (r: Result<seq<Row>, ParseError>)
    ensures r == GatherValue(walk)
  {
    var rows: seq<Row> := [];
    for i := 0 to |walk|
      invariant Traverse(Candidates(walk[..i]), CandidateRow) == Ok(rows)
    {
      var d := walk[i];
      var parsed := ParseThreadsAndReqs(d.dirname);
      if parsed.None? {
        CandidatesDirSkipped(walk, i);
        continue;
      }
      var threads, reqs := parsed.value.0, parsed.value.1;
      if threads !in VALID_THREAD_COUNTS {
        CandidatesDirSkipped(walk, i);
        continue;
      }
      assert CandidatesUpTo(walk, i, threads, reqs, 0) == Candidates(walk[..i]) by {
        assert d.files[..0] == [];
      }
      for j := 0 to |d.files|
        invariant Traverse(CandidatesUpTo(walk, i, threads, reqs, j), CandidateRow) == Ok(rows)
      {
        var f := d.files[j];
        GatherStep(walk, i, threads, reqs, j, rows);
        if !Contains(f.name, RESULTS_SEPARATOR) {
          continue;
        }
        var queueName := ParseQueueName(f.name);
        var metrics := ParseResultFile(f.lines);
        if metrics.Err? {
          GatherStopsAt(walk, i, threads, reqs, j + 1);
          return Err(metrics.error);
        }
        rows := rows + [Row(threads, reqs, queueName, metrics.value)];
      }
      CandidatesDirDone(walk, i, threads, reqs);
    }
    assert walk[..|walk|] == walk;
    r := Ok(rows);
  }

  /** Each file is tagged once, however often it occurs. */
  lemma {:induction false} TaggedCount(threads: nat, reqs: nat, files: seq<ResultFile>, f: ResultFile)
    ensures multiset(Tagged(threads, reqs, files))[Candidate(threads, reqs, f)] == multiset(files)[f]
  {
    if files != [] {
      var head, rest := files[0], files[1..];
      TaggedCount(threads, reqs, rest, f);
      assert files == [head] + rest;
      TaggedConcat(threads, reqs, [head], rest);
      assert Tagged(threads, reqs, [head]) == [Candidate(threads, reqs, head)];
      MultisetCons(Candidate(threads, reqs, head), Tagged(threads, reqs, rest));
      MultisetCons(head, rest);
    }
  }

  /** A qualifying directory yields one candidate per occurrence of a file with the separator and
      none for any other file. */
  lemma {:induction false} DirCandidatesCount(d: WalkEntry, threads: nat, reqs: nat, f: ResultFile)
    requires ParseThreadsAndReqs(d.dirname) == Some((threads, reqs)) && threads in VALID_THREAD_COUNTS
    ensures multiset(DirCandidates(d))[Candidate(threads, reqs, f)]
      == if IsResultFileName(f) then multiset(d.files)[f] else 0
  {
    DirCandidatesOf(d, threads, reqs);
    TaggedCount(threads, reqs, ResultFiles(d.files), f);
    if IsResultFileName(f) {
      FilterKeyCount(d.files, IsResultFileName, f);
    } else {
      assert f !in ResultFiles(d.files);
    }
  }

  /** Where a candidate comes from: a file with the separator, listed in a directory whose name
      parses to the candidate's configuration with a valid thread count. */
  lemma {:induction false} CandidateSource(walk: seq<WalkEntry>, c: Candidate)
    requires c in Candidates(walk)
    ensures exists i :: 0 <= i < |walk| && c.file in walk[i].files
                        && ParseThreadsAndReqs(walk[i].dirname) == Some((c.threads, c.requestsPerClient))
    ensures c.threads in VALID_THREAD_COUNTS && IsResultFileName(c.file)
  {
    FlatMapMembers(walk, DirCandidates, c);
    var i :| 0 <= i < |walk| && c in DirCandidates(walk[i]);
    DirCandidateSource(walk[i], c);
  }

  /** The same for the candidates of one directory. */
  lemma {:induction false} DirCandidateSource(d: WalkEntry, c: Candidate)
    requires c in DirCandidates(d)
    ensures c.file in d.files && ParseThreadsAndReqs(d.dirname) == Some((c.threads, c.requestsPerClient))
    ensures c.threads in VALID_THREAD_COUNTS && IsResultFileName(c.file)
  {
    var cfg := ParseThreadsAndReqs(d.dirname).value;
    var fs := ResultFiles(d.files);
    DirCandidatesOf(d, cfg.0, cfg.1);
    var k :| 0 <= k < |fs| && Tagged(cfg.0, cfg.1, fs)[k] == c;
    FilterKeySubMultiset(d.files, IsResultFileName, true);
    assert fs[k] in multiset(fs);
  }

  /** gather_results succeeds exactly when every candidate's file parses; then row k is candidate k
      stamped with its directory's configuration and its file's queue name. */
  lemma {:induction false} GatherRowsStamped(walk: seq<WalkEntry>)
    ensures GatherValue(walk).Ok? <==>
      forall k :: 0 <= k < |Candidates(walk)| ==> ResultFileValue(Candidates(walk)[k].file.lines).Ok?
    ensures GatherValue(walk).Ok? ==>
      |GatherValue(walk).value| == |Candidates(walk)|
      && forall k :: 0 <= k < |Candidates(walk)| ==>
        var c := Candidates(walk)[k];
        GatherValue(walk).value[k]
          == Row(c.threads, c.requestsPerClient, ParseQueueName(c.file.name), ResultFileValue(c.file.lines).value)
  {
    var cs := Candidates(walk);
    TraverseOk(cs, CandidateRow);
  }

  // ---------------- CSV files ----------------

  const FIELDNAMES: seq<string> := [
    "threads", "requests_per_client", "queue", "runtime_ms",
    "throughput_reqs_per_sec", "latency_ms", "avg_enqueue_ms", "avg_dequeue_ms"]

  const ALL_RESULTS_CSV := "all_results_filtered.csv"

  /** A CSV file as written: its name in the CSV folder and its rows in order, below the FIELDNAMES header. */
  datatype CsvFile = CsvFile(name: string, rows: seq<Row>) {
    function Path(): string {
      CSV_DIR + "/" + name
    }

    function Header(): seq<string> {
      FIELDNAMES
    }
  }

  /** The sort key of the CSV rows: (requests_per_client, threads, queue). */
  function CsvKey(r: Row): seq<KeyPart> {
    [Num(r.requestsPerClient), Num(r.threads), Str(r.queue)]
  }

  /** The order of the CSV rows, field by field: workload, then threads, then queue name. */
  predicate RowLe(a: Row, b: Row) {
    || a.requestsPerClient < b.requestsPerClient
    || (a.requestsPerClient == b.requestsPerClient && a.threads < b.threads)
    || (a.requestsPerClient == b.requestsPerClient && a.threads == b.threads && StrLe(a.queue, b.queue))
  }

  /** Comparing the keys is comparing the rows field by field. */
  lemma {:induction false} CsvKeyOrder(a: Row, b: Row)
    ensures KeyLe(CsvKey(a), CsvKey(b)) <==> RowLe(a, b)
  {
    var ka, kb := CsvKey(a), CsvKey(b);
    var ta, tb := [Num(a.threads), Str(a.queue)], [Num(b.threads), Str(b.queue)];
    var qa, qb := [Str(a.queue)], [Str(b.queue)];
    assert ka[1..] == ta && kb[1..] == tb;
    assert ta[1..] == qa && tb[1..] == qb;
    assert KeyLe(qa[1..], qb[1..]);
    StrLeReflexive(a.queue);
    assert KeyLe(qa, qb) <==> StrLe(a.queue, b.queue);
    assert KeyLe(ta, tb) <==> a.threads < b.threads || (a.threads == b.threads && StrLe(a.queue, b.queue));
  }

  /** write_csv: sorts the rows by (requests_per_client, threads, queue) and writes them in that order. */
  method WriteCsv(rows: seq<Row>, filename: string) returns (file: CsvFile)
    ensures file == CsvFile(filename, SortBy(rows, CsvKey))
  {
    var sortedRows := SortBy(rows, CsvKey);
    var written: seq<Row> := [];
    for i := 0 to |sortedRows|
      invariant written == sortedRows[..i]
    {
      assert sortedRows[..i + 1] == sortedRows[..i] + [sortedRows[i]];
      written := written + [sortedRows[i]];
    }
    assert sortedRows[..|sortedRows|] == sortedRows;
    file := CsvFile(filename, written);
  }

  /**
   * The rows of a CSV file are the input rows, each as often as there, in
   * (requests_per_client, threads, queue) order; rows with equal keys keep
   * their input order.
   */
  lemma {:induction false} CsvRowsOrdered(rows: seq<Row>)
    ensures var out := SortBy(rows, CsvKey);
      && multiset(out) == multiset(rows)
      && (forall i, j :: 0 <= i < j < |out| ==> RowLe(out[i], out[j]))
      && (forall k :: FilterKey(out, CsvKey, k) == FilterKey(rows, CsvKey, k))
  {
    var out := SortBy(rows, CsvKey);
    SortByPermutes(rows, CsvKey);
    SortBySorted(rows, CsvKey);
    forall i, j | 0 <= i < j < |out| ensures RowLe(out[i], out[j]) {
      CsvKeyOrder(out[i], out[j]);
    }
    forall k ensures FilterKey(out, CsvKey, k) == FilterKey(rows, CsvKey, k) {
      SortByStable(rows, CsvKey, k);
    }
  }

  /** The workload of a row. */
  function Reqs(r: Row): nat {
    r.requestsPerClient
  }

  function WorkloadFileName(reqs: nat): string {
    "aggregate_" + NatToString(reqs) + "_reqPerClient.csv"
  }

  /** The CSV file written for the group of one workload. */
  function GroupCsv(reqs: nat, group: seq<Row>): CsvFile {
    CsvFile(WorkloadFileName(reqs), SortBy(group, CsvKey))
  }

  /** The CSV file of one workload: that workload's rows, sorted as every CSV file is. */
  function WorkloadCsv(rows: seq<Row>, reqs: nat): CsvFile {
    GroupCsv(reqs, FilterKey(rows, Reqs, reqs))
  }

  /** The per-workload files, one per workload in the order the workloads first appear. */
  function WorkloadCsvs(rows: seq<Row>): seq<CsvFile> {
    var ks := FirstAppearance(rows, Reqs);
    seq(|ks|, i requires 0 <= i < |ks| => WorkloadCsv(rows, ks[i]))
  }

  /** write_per_workload_csvs: groups the rows by workload and writes one CSV file per group. */
  method WritePerWorkloadCsvs(rows: seq<Row>) returns (files: seq<CsvFile>)
    ensures files == WorkloadCsvs(rows)
  {
    var reqs, groups := GroupBy(rows, Reqs);
    files := [];
    for i := 0 to |reqs|
      invariant |files| == i
      invariant forall k :: 0 <= k < i ==> files[k] == GroupCsv(reqs[k], groups[k])
    {
      var file := WriteCsv(groups[i], WorkloadFileName(reqs[i]));
      files := files + [file];
    }
    WorkloadCsvsOfGroups(rows, reqs, groups, files);
  }

  /** Writing each group's file, group by group, gives the per-workload files. */
  lemma {:induction false} WorkloadCsvsOfGroups(rows: seq<Row>, reqs: seq<nat>, groups: seq<seq<Row>>, files: seq<CsvFile>)
    requires reqs == FirstAppearance(rows, Reqs)
    requires |groups| == |reqs| && forall j :: 0 <= j < |reqs| ==> groups[j] == FilterKey(rows, Reqs, reqs[j])
    requires |files| == |reqs| && forall k :: 0 <= k < |reqs| ==> files[k] == GroupCsv(reqs[k], groups[k])
    ensures files == WorkloadCsvs(rows)
  {
    assert |files| == |WorkloadCsvs(rows)|;
    forall k | 0 <= k < |files| ensures files[k] == WorkloadCsvs(rows)[k] {
      assert groups[k] == FilterKey(rows, Reqs, reqs[k]);
    }
  }

  /** Different workloads write to different files: the decimal text of a number determines it. */
  lemma {:induction false} WorkloadFileNamesDistinct(a: nat, b: nat)
    requires a != b
    ensures WorkloadFileName(a) != WorkloadFileName(b)
  {
    var head, tail := "aggregate_", "_reqPerClient.csv";
    var sa, sb := NatToString(a), NatToString(b);
    var pa, pb := WorkloadFileName(a), WorkloadFileName(b);
    assert pa == head + sa + tail && pb == head + sb + tail;
    assert pa[|head|..|pa| - |tail|] == sa;
    assert pb[|head|..|pb| - |tail|] == sb;
    assert sa != sb by {
      assert DigitsValue(sa) != DigitsValue(sb);
    }
  }

  /**
   * The per-workload files partition the rows: each file holds only rows of
   * its own workload, every row is in the file of its workload, and no two
   * files share a path.
   */
  lemma {:induction false} WorkloadCsvsPartition(rows: seq<Row>)
    ensures var files := WorkloadCsvs(rows);
      && (forall i, r :: 0 <= i < |files| && r in files[i].rows ==>
            files[i].name == WorkloadFileName(r.requestsPerClient))
      && (forall r :: r in rows ==> exists i :: 0 <= i < |files| && r in files[i].rows)
      && (forall i, j :: 0 <= i < j < |files| ==> files[i].name != files[j].name)
  {
    WorkloadCsvsOwnRows(rows);
    WorkloadCsvsCover(rows);
    WorkloadCsvsDistinctNames(rows);
  }

  /** Each per-workload file holds only rows of its own workload. */
  lemma {:induction false} WorkloadCsvsOwnRows(rows: seq<Row>)
    ensures var files := WorkloadCsvs(rows);
      forall i, r :: 0 <= i < |files| && r in files[i].rows ==>
        files[i].name == WorkloadFileName(r.requestsPerClient)
  {
    var ks := FirstAppearance(rows, Reqs);
    var files := WorkloadCsvs(rows);
    forall i, r | 0 <= i < |files| && r in files[i].rows
      ensures files[i].name == WorkloadFileName(r.requestsPerClient)
    {
      var group := FilterKey(rows, Reqs, ks[i]);
      SortByPermutes(group, CsvKey);
      assert r in multiset(SortBy(group, CsvKey));
      var k :| 0 <= k < |group| && group[k] == r;
    }
  }

  /** Every row lands in some per-workload file. */
  lemma {:induction false} WorkloadCsvsCover(rows: seq<Row>)
    ensures var files := WorkloadCsvs(rows);
      forall r :: r in rows ==> exists i :: 0 <= i < |files| && r in files[i].rows
  {
    var ks := FirstAppearance(rows, Reqs);
    var files := WorkloadCsvs(rows);
    FirstAppearanceKeys(rows, Reqs);
    forall r | r in rows
      ensures exists i :: 0 <= i < |files| && r in files[i].rows
    {
      var n :| 0 <= n < |rows| && rows[n] == r;
      assert Reqs(rows[n]) in ks;
      var i :| 0 <= i < |ks| && ks[i] == Reqs(r);
      assert files[i] == WorkloadCsv(rows, ks[i]);
      FilterKeyHas(rows, Reqs, n);
      SortByPermutes(FilterKey(rows, Reqs, ks[i]), CsvKey);
      assert r in multiset(SortBy(FilterKey(rows, Reqs, ks[i]), CsvKey));
    }
  }

  /** No two per-workload files share a path. */
  lemma {:induction false} WorkloadCsvsDistinctNames(rows: seq<Row>)
    ensures var files := WorkloadCsvs(rows);
      forall i, j :: 0 <= i < j < |files| ==> files[i].name != files[j].name
  {
    var ks := FirstAppearance(rows, Reqs);
    var files := WorkloadCsvs(rows);
    FirstAppearanceKeys(rows, Reqs);
    forall i, j | 0 <= i < j < |files|
      ensures files[i].name != files[j].name
    {
      WorkloadFileNamesDistinct(ks[i], ks[j]);
    }
  }

  /** The rows of each file, in file order. */
  function RowsOf(files: seq<CsvFile>): (groups: seq<seq<Row>>)
    ensures |groups| == |files| && forall i :: 0 <= i < |files| ==> groups[i] == files[i].rows
  {
    seq(|files|, i requires 0 <= i < |files| => files[i].rows)
  }

  /** The per-workload files together hold every row exactly once. */
  lemma {:induction false} WorkloadCsvsKeepRows(rows: seq<Row>)
    ensures multiset(Concat(RowsOf(WorkloadCsvs(rows)))) == multiset(rows)
  {
    var ks := FirstAppearance(rows, Reqs);
    var groups := GroupsOf(rows, Reqs, ks);
    var written := RowsOf(WorkloadCsvs(rows));
    FirstAppearanceKeys(rows, Reqs);
    forall j | 0 <= j < |written| ensures multiset(written[j]) == multiset(groups[j]) {
      assert written[j] == SortBy(groups[j], CsvKey);
      SortByPermutes(groups[j], CsvKey);
    }
    ConcatSameMultisets(written, groups);
    ConcatGroupsIsPermutation(rows, Reqs, ks);
  }

  // ---------------- Plots ----------------

  /** One plotted line: its legend label and its points, the thread counts on the x axis. */
  datatype Series = Series(name: string, xs: seq<nat>, ys: seq<real>)

  /** One saved chart: the metric and workload it shows, its y-axis label and its lines in drawing order. */
  datatype Chart = Chart(metric: Metric, reqs: nat, ylabel: string, series: seq<Series>) {
    function Path(): string {
      PLOTS_DIR + "/" + metric.Subdir() + "/" + metric.Name() + "_" + NatToString(reqs) + ".png"
    }

    function Title(): string {
      ylabel + " vs Threads (" + NatToString(reqs) + " req/client)"
    }

    function XLabel(): string {
      "Threads"
    }
  }

  function Queue(r: Row): string {
    r.queue
  }

  function ThreadsKey(r: Row): seq<KeyPart> {
    [Num(r.threads)]
  }

  /** The line of one queue: the queue's rows by thread count, x the threads and y the metric. */
  function SeriesOf(queue: string, qrows: seq<Row>, m: Metric): Series {
    var byThreads := SortBy(qrows, ThreadsKey);
    Series(queue,
      seq(|byThreads|, k requires 0 <= k < |byThreads| => byThreads[k].threads),
      seq(|byThreads|, k requires 0 <= k < |byThreads| => byThreads[k].metrics.Get(m)))
  }

  /** The chart of one metric for one workload: one line per queue, in first-appearance order. */
  function ChartOf(rows: seq<Row>, m: Metric, ylabel: string, reqs: nat): Chart {
    var queues := FirstAppearance(rows, Queue);
    Chart(m, reqs, ylabel,
      seq(|queues|, j requires 0 <= j < |queues| => SeriesOf(queues[j], FilterKey(rows, Queue, queues[j]), m)))
  }

  /** plot_metric: groups the rows by queue and draws each queue's rows sorted by thread count. */
  method PlotMetric(rows: seq<Row>, m: Metric, ylabel: string, reqs: nat) returns (chart: Chart)
    ensures chart == ChartOf(rows, m, ylabel, reqs)
  {
    var queues, groups := GroupBy(rows, Queue);
    var lines: seq<Series> := [];
    for j := 0 to |queues|
      invariant |lines| == j
      invariant forall k :: 0 <= k < j ==> lines[k] == SeriesOf(queues[k], groups[k], m)
    {
      var qrows := SortBy(groups[j], ThreadsKey);
      var x := seq(|qrows|, k requires 0 <= k < |qrows| => qrows[k].threads);
      var y := seq(|qrows|, k requires 0 <= k < |qrows| => qrows[k].metrics.Get(m));
      var line := Series(queues[j], x, y);
      assert line == SeriesOf(queues[j], groups[j], m) by {
        var s := SeriesOf(queues[j], groups[j], m);
        assert x == s.xs && y == s.ys;
      }
      lines := lines + [line];
    }
    chart := Chart(m, reqs, ylabel, lines);
    assert lines == ChartOf(rows, m, ylabel, reqs).series by {
      var expected := ChartOf(rows, m, ylabel, reqs);
      assert |lines| == |expected.series|;
      forall k | 0 <= k < |lines| ensures lines[k] == expected.series[k] {
        assert groups[k] == FilterKey(rows, Queue, queues[k]);
      }
    }
  }

  /** A one-part key compares its numbers. */
  lemma {:induction false} ThreadsKeyOrder(a: Row, b: Row)
    ensures KeyLe(ThreadsKey(a), ThreadsKey(b)) <==> a.threads <= b.threads
  {
    assert ThreadsKey(a)[1..] == [] && ThreadsKey(b)[1..] == [];
  }

  /** The line's thread counts never decrease. */
  lemma {:induction false} SeriesAscending(queue: string, qrows: seq<Row>, m: Metric)
    ensures var s := SeriesOf(queue, qrows, m);
      forall i, j :: 0 <= i < j < |s.xs| ==> s.xs[i] <= s.xs[j]
  {
    var byThreads := SortBy(qrows, ThreadsKey);
    var s := SeriesOf(queue, qrows, m);
    SortBySorted(qrows, ThreadsKey);
    forall i, j | 0 <= i < j < |s.xs| ensures s.xs[i] <= s.xs[j] {
      ThreadsKeyOrder(byThreads[i], byThreads[j]);
    }
  }

  /** Every point of the line is (threads, metric) of one of its rows. */
  lemma {:induction false} SeriesFromRows(queue: string, qrows: seq<Row>, m: Metric)
    ensures var s := SeriesOf(queue, qrows, m);
      forall k :: 0 <= k < |s.xs| ==>
        exists r :: r in qrows && r.threads == s.xs[k] && r.metrics.Get(m) == s.ys[k]
  {
    var byThreads := SortBy(qrows, ThreadsKey);
    var s := SeriesOf(queue, qrows, m);
    SortByPermutes(qrows, ThreadsKey);
    forall k | 0 <= k < |s.xs|
      ensures exists r :: r in qrows && r.threads == s.xs[k] && r.metrics.Get(m) == s.ys[k]
    {
      assert byThreads[k] in multiset(qrows);
    }
  }

  /** Every row of the queue gives a point of the line. */
  lemma {:induction false} SeriesCoversRows(queue: string, qrows: seq<Row>, m: Metric)
    ensures var s := SeriesOf(queue, qrows, m);
      forall r :: r in qrows ==>
        exists k :: 0 <= k < |s.xs| && s.xs[k] == r.threads && s.ys[k] == r.metrics.Get(m)
  {
    var byThreads := SortBy(qrows, ThreadsKey);
    var s := SeriesOf(queue, qrows, m);
    SortByPermutes(qrows, ThreadsKey);
    forall r | r in qrows
      ensures exists k :: 0 <= k < |s.xs| && s.xs[k] == r.threads && s.ys[k] == r.metrics.Get(m)
    {
      assert r in multiset(byThreads);
      var k :| 0 <= k < |byThreads| && byThreads[k] == r;
      assert s.xs[k] == r.threads && s.ys[k] == r.metrics.Get(m);
    }
  }

  /**
   * A line has one point per row of its queue, with the x values
   * non-decreasing; every point comes from one of the rows, and every row
   * gives a point.
   */
  lemma {:induction false} SeriesPoints(queue: string, qrows: seq<Row>, m: Metric)
    ensures var s := SeriesOf(queue, qrows, m);
      && s.name == queue
      && |s.xs| == |qrows| && |s.ys| == |qrows|
      && (forall i, j :: 0 <= i < j < |s.xs| ==> s.xs[i] <= s.xs[j])
      && (forall k :: 0 <= k < |s.xs| ==>
            exists r :: r in qrows && r.threads == s.xs[k] && r.metrics.Get(m) == s.ys[k])
      && (forall r :: r in qrows ==>
            exists k :: 0 <= k < |s.xs| && s.xs[k] == r.threads && s.ys[k] == r.metrics.Get(m))
  {
    var byThreads := SortBy(qrows, ThreadsKey);
    SortByPermutes(qrows, ThreadsKey);
    assert |byThreads| == |qrows| by {
      assert |multiset(byThreads)| == |multiset(qrows)|;
    }
    SeriesAscending(queue, qrows, m);
    SeriesFromRows(queue, qrows, m);
    SeriesCoversRows(queue, qrows, m);
  }

  /**
   * A chart has one line per queue of its rows: the labels are distinct,
   * every row's queue has a line, and each line is drawn from exactly the
   * rows of its queue.
   */
  lemma {:induction false} ChartLinesByQueue(rows: seq<Row>, m: Metric, ylabel: string, reqs: nat)
    ensures var c := ChartOf(rows, m, ylabel, reqs);
      && (forall i, j :: 0 <= i < j < |c.series| ==> c.series[i].name != c.series[j].name)
      && (forall r :: r in rows ==> exists j :: 0 <= j < |c.series| && c.series[j].name == r.queue)
      && (forall j :: 0 <= j < |c.series| ==>
            c.series[j] == SeriesOf(c.series[j].name, FilterKey(rows, Queue, c.series[j].name), m))
  {
    var queues := FirstAppearance(rows, Queue);
    var c := ChartOf(rows, m, ylabel, reqs);
    FirstAppearanceKeys(rows, Queue);
    forall r | r in rows
      ensures exists j :: 0 <= j < |c.series| && c.series[j].name == r.queue
    {
      var n :| 0 <= n < |rows| && rows[n] == r;
      assert Queue(rows[n]) in queues;
      var j :| 0 <= j < |queues| && queues[j] == r.queue;
      assert c.series[j].name == r.queue;
    }
  }

  /** The five charts of one workload, in the order runtime, throughput, latency, enqueue, dequeue. */
  function WorkloadCharts(rows: seq<Row>, reqs: nat): seq<Chart> {
    var subset := FilterKey(rows, Reqs, reqs);
    [ ChartOf(subset, RuntimeMs, RuntimeMs.Label(), reqs),
      ChartOf(subset, ThroughputReqsPerSec, ThroughputReqsPerSec.Label(), reqs),
      ChartOf(subset, LatencyMs, LatencyMs.Label(), reqs),
      ChartOf(subset, AvgEnqueueMs, AvgEnqueueMs.Label(), reqs),
      ChartOf(subset, AvgDequeueMs, AvgDequeueMs.Label(), reqs) ]
  }

  /** The charts of each workload, as a function of the workload. */
  function ChartsOf(rows: seq<Row>): nat -> seq<Chart> {
    (reqs: nat) => WorkloadCharts(rows, reqs)
  }

  function AllCharts(rows: seq<Row>): seq<Chart> {
    FlatMap(FirstAppearance(rows, Reqs), ChartsOf(rows))
  }

  /** generate_all_plots: for each workload in first-appearance order, the five metric charts. */
  method GenerateAllPlots(rows: seq<Row>) returns (charts: seq<Chart>)
    ensures charts == AllCharts(rows)
  {
    var reqs, groups := GroupBy(rows, Reqs);
    charts := [];
    for i := 0 to |reqs|
      invariant charts == FlatMap(reqs[..i], ChartsOf(rows))
    {
      var subset := groups[i];
      var runtime := PlotMetric(subset, RuntimeMs, RuntimeMs.Label(), reqs[i]);
      var throughput := PlotMetric(subset, ThroughputReqsPerSec, ThroughputReqsPerSec.Label(), reqs[i]);
      var latency := PlotMetric(subset, LatencyMs, LatencyMs.Label(), reqs[i]);
      var enqueue := PlotMetric(subset, AvgEnqueueMs, AvgEnqueueMs.Label(), reqs[i]);
      var dequeue := PlotMetric(subset, AvgDequeueMs, AvgDequeueMs.Label(), reqs[i]);
      var five := [runtime, throughput, latency, enqueue, dequeue];
      assert five == ChartsOf(rows)(reqs[i]) by {
        assert subset == FilterKey(rows, Reqs, reqs[i]);
      }
      assert FlatMap(reqs[..i + 1], ChartsOf(rows)) == FlatMap(reqs[..i], ChartsOf(rows)) + ChartsOf(rows)(reqs[i]) by {
        assert reqs[..i + 1][..i] == reqs[..i];
        assert reqs[..i + 1][i] == reqs[i];
      }
      charts := charts + five;
    }
    assert reqs[..|reqs|] == reqs;
  }

  /**
   * Five charts per workload: chart 5 i + k shows metric k for the i-th
   * workload, drawn from that workload's rows only.
   */
  lemma {:induction false} AllChartsIndex(rows: seq<Row>)
    ensures var ks := FirstAppearance(rows, Reqs);
      && |AllCharts(rows)| == |METRICS| * |ks|
      && forall i, k :: 0 <= i < |ks| && 0 <= k < |METRICS| ==>
           AllCharts(rows)[|METRICS| * i + k]
             == ChartOf(FilterKey(rows, Reqs, ks[i]), METRICS[k], METRICS[k].Label(), ks[i])
  {
    var ks := FirstAppearance(rows, Reqs);
    var f := ChartsOf(rows);
    assert forall x :: |f(x)| == |METRICS|;
    FlatMapUniformLength(ks, f, |METRICS|);
    forall i, k | 0 <= i < |ks| && 0 <= k < |METRICS|
      ensures AllCharts(rows)[|METRICS| * i + k]
        == ChartOf(FilterKey(rows, Reqs, ks[i]), METRICS[k], METRICS[k].Label(), ks[i])
    {
      FlatMapUniformAt(ks, f, |METRICS|, i, k);
      WorkloadChartAt(rows, ks[i], k);
    }
  }

  lemma {:induction false} WorkloadChartAt(rows: seq<Row>, reqs: nat, k: nat)
    requires k < |METRICS|
    ensures WorkloadCharts(rows, reqs)[k] == ChartOf(FilterKey(rows, Reqs, reqs), METRICS[k], METRICS[k].Label(), reqs)
  {
    if k == 0 {
    } else if k == 1 {
    } else if k == 2 {
    } else if k == 3 {
    } else {
      assert k == 4;
    }
  }

  // ---------------- The whole run ----------------

  /** How a run ends: a result file that does not parse, no rows, or the files written. */
  datatype Outcome =
    | Failed(error: ParseError)
    | NoRows
    | Written(csvFiles: seq<CsvFile>, charts: seq<Chart>)

  function AnalysisOf(walk: seq<WalkEntry>): Outcome {
    match GatherValue(walk)
    case Err(e) => Failed(e)
    case Ok(rows) =>
      if rows == [] then NoRows
      else Written([CsvFile(ALL_RESULTS_CSV, SortBy(rows, CsvKey))] + WorkloadCsvs(rows),
                   AllCharts(rows))
  }

  /** main: gather the rows; with none, stop; else the combined CSV, the per-workload CSVs, the charts. */
  method RunAnalysis(walk: seq<WalkEntry>) returns (out: Outcome)
    ensures out == AnalysisOf(walk)
  {
    var gathered := GatherResults(walk);
    if gathered.Err? {
      return Failed(gathered.error);
    }
    var rows := gathered.value;
    if rows == [] {
      return NoRows;
    }
    var all := WriteCsv(rows, ALL_RESULTS_CSV);
    var perWorkload := WritePerWorkloadCsvs(rows);
    var charts := GenerateAllPlots(rows);
    out := Written([all] + perWorkload, charts);
  }

  /**
   * A run fails exactly when some result file does not parse and stops
   * early exactly when no row was gathered; otherwise the combined CSV holds
   * every gathered row, one CSV per workload follows it, and five charts are
   * drawn per workload.
   */
  lemma {:induction false} AnalysisOutcome(walk: seq<WalkEntry>)
    ensures AnalysisOf(walk).Failed? <==> GatherValue(walk).Err?
    ensures AnalysisOf(walk).NoRows? <==> GatherValue(walk) == Ok([])
    ensures AnalysisOf(walk).Written? ==>
      var rows := GatherValue(walk).value;
      var out := AnalysisOf(walk);
      && |out.csvFiles| == 1 + |FirstAppearance(rows, Reqs)|
      && out.csvFiles[0].name == ALL_RESULTS_CSV
      && multiset(out.csvFiles[0].rows) == multiset(rows)
      && |out.charts| == |METRICS| * |FirstAppearance(rows, Reqs)|
  {
    if GatherValue(walk).Ok? {
      var rows := GatherValue(walk).value;
      AllChartsIndex(rows);
      SortByPermutes(rows, CsvKey);
    }
  }
}
