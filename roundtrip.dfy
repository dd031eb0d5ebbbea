/**
 * The two ends of the result-file format together: the names and the text
 * the benchmark writes are the ones the analysis script reads back.
 */
module RoundTrip {
  import opened Results
  import opened Text
  import opened Decimal
  import opened Folds
  import opened AnalyzeResults
  import opened Recorder

  // ---------------- Directory names ----------------

  /** The base name of the result sub-folder the benchmark runner creates for one configuration. */
  function WorkloadDirName(producers: nat, requestsPerClient: nat): string {
    "threads_" + NatToString(producers) + "_" + NatToString(requestsPerClient) + "_reqPerClient"
  }

  /** The analysis recovers both numbers from every directory name the runner creates. */
  lemma {:induction false} WorkloadDirNameParses(producers: nat, requestsPerClient: nat)
    ensures ParseThreadsAndReqs(WorkloadDirName(producers, requestsPerClient)) == Some((producers, requestsPerClient))
  {
    PatternParses(NatToString(producers), NatToString(requestsPerClient));
  }

  // ---------------- Result file names ----------------

  /**
   * The queue name comes back from the base name of its result file, for any
   * timestamp, when the name neither contains "_results_" nor ends with
   * "_results" (which would form a separator with the one appended).
   */
  lemma {:induction false} ResultFileNameParses(name: string, timestamp: string)
    requires !Contains(name, RESULTS_SEPARATOR)
    requires !EndsWith(name, "_results")
    ensures IsResultFileName(ResultFile(ResultFileName(name, timestamp), []))
    ensures ParseQueueName(ResultFileName(name, timestamp)) == name
  {
    var s := ResultFileName(name, timestamp);
    var n := |name|;
    assert s == name + (RESULTS_SEPARATOR + timestamp + ".txt");
    assert OccursAt(s, RESULTS_SEPARATOR, n) by {
      assert s[n..n + 9] == RESULTS_SEPARATOR;
    }
    forall j | 0 <= j < n
      ensures !OccursAt(s, RESULTS_SEPARATOR, j)
    {
      if j + 9 <= n {
        assert s[j..j + 9] == name[j..j + 9];
        if OccursAt(name, RESULTS_SEPARATOR, j) {
          ContainsWhenOccurs(name, RESULTS_SEPARATOR, j);
        }
      } else if j + 8 == n {
        assert s[j..j + 8] == name[n - 8..] != "_results";
        assert RESULTS_SEPARATOR[..8] == "_results";
        assert j + 9 <= |s| ==> s[j..j + 9][..8] == s[j..j + 8];
      } else if j + 9 <= |s| {
        assert s[j..j + 9][n - j] == s[n] == '_';
        assert RESULTS_SEPARATOR[n - j] != '_';
      }
    }
    FindIsFirst(s, RESULTS_SEPARATOR, n);
    ContainsWhenOccurs(s, RESULTS_SEPARATOR, n);
    assert s[..n] == name;
  }

  // ---------------- Time values ----------------

  /** Every unit fmtTime prints is one parse_time_to_ms accepts. */
  lemma {:induction false} UnitsAccepted(u: TimeUnit)
    ensures IsTimeUnit(u.Symbol())
  {
  }

  /** A value in unit u, in milliseconds: what parse_time_to_ms makes of it. */
  function ToMs(u: TimeUnit, v: real): real {
    match u
    case Millis => v
    case Micros => v / 1000.0
    case Nanos => v / 1000000.0
  }

  /** The milliseconds the analysis reads from fmtTime's text: the printed number, in its unit. */
  function TimeReadBack(ns: real): real {
    var u := UnitFor(ns);
    ToMs(u, Fixed2(ns / u.NanosPer()))
  }

  /** A text whose words are a decimal number and one of fmtTime's units. */
  lemma {:induction false} TimeValueParses(text: string, w: seq<string>, u: TimeUnit, v: real)
    requires Words(Strip(text)) == w && |w| == 2 && w[1] == u.Symbol()
    requires ParseDecimal(w[0]) == Some(v)
    ensures ParseTimeToMs(text).Ok? && ParseTimeToMs(text).value == ToMs(u, v)
  {
    match u {
      case Millis => assert w[1] == "ms"; assert ParseTimeToMs(text).value == v;
      case Micros => assert w[1] == "\U{B5}s"; assert ParseTimeToMs(text).value == v / 1000.0;
      case Nanos => assert w[1] == "ns"; assert ParseTimeToMs(text).value == v / 1000000.0;
    }
  }

  /** fmtTime's text is a time value parse_time_to_ms reads back. */
  lemma {:induction false} FmtTimeParses(ns: real)
    ensures ParseTimeToMs(FmtTime(ns)).Ok? && ParseTimeToMs(FmtTime(ns)).value == TimeReadBack(ns)
  {
    var u := UnitFor(ns);
    var number := FormatFixed2(ns / u.NanosPer());
    var text := FmtTime(ns);
    assert Strip(text) == text by {
      assert text == number + " " + u.Symbol();
      assert text[0] == number[0];
      assert text[|text| - 1] == u.Symbol()[|u.Symbol()| - 1];
      StripUnchanged(text);
    }
    FmtTimeWords(ns);
    ParseFormatFixed2(ns / u.NanosPer());
    TimeValueParses(text, [number, u.Symbol()], u, Fixed2(ns / u.NanosPer()));
  }

  /** What is read back is within five microseconds of the exact time, and closer for the smaller units. */
  lemma {:induction false} TimeReadBackClose(ns: real)
    ensures var err := TimeReadBack(ns) - ns / 1000000.0;
      -0.005 <= err <= 0.005
    ensures UnitFor(ns) != Millis ==> -0.000005 <= TimeReadBack(ns) - ns / 1000000.0 <= 0.000005
  {
    var u := UnitFor(ns);
    var x := ns / u.NanosPer();
    Fixed2Close(x);
    match u {
      case Millis =>
      case Micros =>
      case Nanos =>
    }
  }

  // ---------------- The summary file ----------------

  /** parse_result_file takes the line as metric m's and reads the value x from it. */
  predicate Reads(line: string, m: Metric, x: real) {
    LineLabel(line) == Some(m) && LineValue(m, line).Ok? && LineValue(m, line).value == x
  }

  /** The throughput the summary prints, in requests per second. */
  function Throughput(processed: nat, runtimeNanos: int): real
    requires runtimeNanos != 0
  {
    processed as real / (runtimeNanos as real / 1000000000.0)
  }

  /** A line that opens with neither 'T' nor 'A' carries none of the five labels. */
  lemma {:induction false} UnlabelledByFirstChar(line: string)
    requires line != [] && !IsSpace(line[0]) && line[0] != 'T' && line[0] != 'A'
    ensures LineLabel(line).None?
  {
    StripKeepsFirst(line);
    var t := Strip(line);
    FirstCharNotPrefix(t, "Total runtime:");
    FirstCharNotPrefix(t, "Avg enqueue time:");
    FirstCharNotPrefix(t, "Avg dequeue time:");
    FirstCharNotPrefix(t, "Avg end-to-end request latency:");
    FirstCharNotPrefix(t, "Throughput:");
  }

  /** A text does not start with a prefix whose first character differs from its own. */
  lemma {:induction false} FirstCharNotPrefix(t: string, p: string)
    requires t != [] && p != [] && t[0] != p[0]
    ensures !StartsWith(t, p)
  {
    if |p| <= |t| {
      assert t[..|p|][0] == t[0];
    }
  }

  lemma {:induction false} HeaderLineIgnored()
    ensures LineLabel("==== Simulation Summary ====").None?
  {
    UnlabelledByFirstChar("==== Simulation Summary ====");
  }

  lemma {:induction false} OpsCountLineIgnored(c: Counters)
    ensures LineLabel(OpsCountLine(c)).None?
  {
    assert OpsCountLine(c)[0] == 'O';
    UnlabelledByFirstChar(OpsCountLine(c));
  }

  /** A line that starts with p does not start with a label q that differs from p at index k. */
  lemma {:induction false} NotOtherLabel(line: string, p: string, q: string, k: nat, a: char, b: char)
    requires StartsWith(line, p) && k < |p| && k < |q| && p[k] == a && q[k] == b && a != b
    ensures !StartsWith(line, q)
  {
    assert line[k] == line[..|p|][k];
    if |q| <= |line| {
      assert line[..|q|][k] == line[k];
    }
  }

  /** A line of tokens joined by spaces, as the analysis sees it. */
  lemma {:induction false} LineShape(line: string, ws: seq<string>)
    requires JoinSpace(ws) == line
    requires |ws| > 0 && forall i :: 0 <= i < |ws| ==> IsToken(ws[i])
    ensures Strip(line) == line && Words(line) == ws
  {
    JoinSpaceReads(ws);
  }

  // The runtime line.

  lemma {:induction false} RuntimeLineJoin(number: string)
    ensures JoinSpace(["Total", "runtime:", number, "ms"]) == "Total runtime: " + number + " ms"
  {
    var ws := ["Total", "runtime:", number, "ms"];
    assert ws[1..] == ["runtime:", number, "ms"];
    assert ws[1..][1..] == [number, "ms"];
    assert JoinSpace([number, "ms"]) == number + " ms";
  }

  lemma {:induction false} RuntimeLineLabel(number: string)
    ensures StartsWith("Total runtime: " + number + " ms", "Total runtime:")
  {
    assert ("Total runtime: " + number + " ms")[..14] == "Total runtime:";
  }

  lemma {:induction false} RuntimeReads(line: string, ws: seq<string>, x: real)
    requires Strip(line) == line && Words(line) == ws && StartsWith(line, "Total runtime:")
    requires |ws| > 2 && ParseDecimal(ws[2]) == Some(x)
    ensures Reads(line, RuntimeMs, x)
  {
  }

  /** The runtime line, for any number token the analysis can parse. */
  lemma {:induction false} RuntimeLineReads(number: string, x: real)
    requires IsToken(number) && ParseDecimal(number) == Some(x)
    ensures Reads("Total runtime: " + number + " ms", RuntimeMs, x)
  {
    RuntimeLineJoin(number);
    LineShape("Total runtime: " + number + " ms", ["Total", "runtime:", number, "ms"]);
    RuntimeLineLabel(number);
    RuntimeReads("Total runtime: " + number + " ms", ["Total", "runtime:", number, "ms"], x);
  }

  // The throughput line.

  lemma {:induction false} ThroughputLineJoin(number: string)
    ensures JoinSpace(["Throughput:", number, "reqs/sec"]) == "Throughput: " + number + " reqs/sec"
  {
    var ws := ["Throughput:", number, "reqs/sec"];
    assert ws[1..] == [number, "reqs/sec"];
    assert JoinSpace([number, "reqs/sec"]) == number + " reqs/sec";
  }

  lemma {:induction false} ThroughputLineLabel(number: string)
    ensures StartsWith("Throughput: " + number + " reqs/sec", "Throughput:")
  {
    assert ("Throughput: " + number + " reqs/sec")[..11] == "Throughput:";
  }

  lemma {:induction false} ThroughputNotOther(line: string)
    requires StartsWith(line, "Throughput:")
    ensures !StartsWith(line, "Total runtime:") && !StartsWith(line, "Avg enqueue time:")
    ensures !StartsWith(line, "Avg dequeue time:") && !StartsWith(line, "Avg end-to-end request latency:")
  {
    NotOtherLabel(line, "Throughput:", "Total runtime:", 1, 'h', 'o');
    NotOtherLabel(line, "Throughput:", "Avg enqueue time:", 0, 'T', 'A');
    NotOtherLabel(line, "Throughput:", "Avg dequeue time:", 0, 'T', 'A');
    NotOtherLabel(line, "Throughput:", "Avg end-to-end request latency:", 0, 'T', 'A');
  }

  lemma {:induction false} ThroughputLabel(line: string)
    requires Strip(line) == line && StartsWith(line, "Throughput:")
    ensures LineLabel(line) == Some(ThroughputReqsPerSec)
  {
    ThroughputNotOther(line);
  }

  lemma {:induction false} ThroughputValue(line: string, ws: seq<string>, x: real)
    requires Strip(line) == line && Words(line) == ws
    requires |ws| > 1 && ParseDecimal(ws[1]) == Some(x)
    ensures LineValue(ThroughputReqsPerSec, line).Ok? && LineValue(ThroughputReqsPerSec, line).value == x
  {
  }

  lemma {:induction false} ThroughputReads(line: string, ws: seq<string>, x: real)
    requires Strip(line) == line && Words(line) == ws && StartsWith(line, "Throughput:")
    requires |ws| > 1 && ParseDecimal(ws[1]) == Some(x)
    ensures Reads(line, ThroughputReqsPerSec, x)
  {
    ThroughputLabel(line);
    ThroughputValue(line, ws, x);
  }

  lemma {:induction false} ThroughputLineReads(number: string, x: real)
    requires IsToken(number) && ParseDecimal(number) == Some(x)
    ensures Reads("Throughput: " + number + " reqs/sec", ThroughputReqsPerSec, x)
  {
    ThroughputLineJoin(number);
    LineShape("Throughput: " + number + " reqs/sec", ["Throughput:", number, "reqs/sec"]);
    ThroughputLineLabel(number);
    ThroughputReads("Throughput: " + number + " reqs/sec", ["Throughput:", number, "reqs/sec"], x);
  }

  // The three time lines.

  lemma {:induction false} JoinSpaceAppend(a: seq<string>, b: seq<string>)
    requires |a| > 0 && |b| > 0
    ensures JoinSpace(a + b) == JoinSpace(a) + " " + JoinSpace(b)
  {
    if |a| > 1 {
      JoinSpaceAppend(a[1..], b);
      assert (a + b)[1..] == a[1..] + b;
    } else {
      assert (a + b)[1..] == b;
    }
  }

  /** The words of a heading, a space and fmtTime's text, and the time value after the heading. */
  lemma {:induction false} TimeLineShape(heading: seq<string>, ns: real)
    requires |heading| > 0 && forall i :: 0 <= i < |heading| ==> IsToken(heading[i])
    ensures var u := UnitFor(ns); var ws := heading + [FormatFixed2(ns / u.NanosPer()), u.Symbol()];
      var line := JoinSpace(heading) + " " + FmtTime(ns);
      && Strip(line) == line && Words(line) == ws
      && JoinSpace(Drop(ws, |heading|)) == FmtTime(ns)
  {
    var u := UnitFor(ns);
    var tail := [FormatFixed2(ns / u.NanosPer()), u.Symbol()];
    var ws := heading + tail;
    JoinSpaceAppend(heading, tail);
    assert JoinSpace(tail) == FmtTime(ns);
    LineShape(JoinSpace(heading) + " " + FmtTime(ns), ws);
    assert ws[|heading|..] == tail;
  }

  /** The words of fmtTime's text. */
  function TimeWords(ns: real): seq<string> {
    var u := UnitFor(ns);
    [FormatFixed2(ns / u.NanosPer()), u.Symbol()]
  }

  lemma {:induction false} EnqueueReads(line: string, ws: seq<string>, t: real)
    requires Strip(line) == line && Words(line) == ws && StartsWith(line, "Avg enqueue time:")
    requires ParseTimeToMs(JoinSpace(Drop(ws, 3))).Ok? && ParseTimeToMs(JoinSpace(Drop(ws, 3))).value == t
    ensures Reads(line, AvgEnqueueMs, t)
  {
    assert !StartsWith(line, "Total runtime:") by {
      NotOtherLabel(line, "Avg enqueue time:", "Total runtime:", 0, 'A', 'T');
    }
  }

  lemma {:induction false} DequeueNotOther(line: string)
    requires StartsWith(line, "Avg dequeue time:")
    ensures !StartsWith(line, "Total runtime:") && !StartsWith(line, "Avg enqueue time:")
  {
    NotOtherLabel(line, "Avg dequeue time:", "Total runtime:", 0, 'A', 'T');
    NotOtherLabel(line, "Avg dequeue time:", "Avg enqueue time:", 4, 'd', 'e');
  }

  lemma {:induction false} DequeueLabel(line: string)
    requires Strip(line) == line && StartsWith(line, "Avg dequeue time:")
    ensures LineLabel(line) == Some(AvgDequeueMs)
  {
    DequeueNotOther(line);
  }

  lemma {:induction false} DequeueValue(line: string, ws: seq<string>, t: real)
    requires Strip(line) == line && Words(line) == ws
    requires ParseTimeToMs(JoinSpace(Drop(ws, 3))).Ok? && ParseTimeToMs(JoinSpace(Drop(ws, 3))).value == t
    ensures LineValue(AvgDequeueMs, line).Ok? && LineValue(AvgDequeueMs, line).value == t
  {
  }

  lemma {:induction false} LatencyNotOther(line: string)
    requires StartsWith(line, "Avg end-to-end request latency:")
    ensures !StartsWith(line, "Total runtime:") && !StartsWith(line, "Avg enqueue time:")
    ensures !StartsWith(line, "Avg dequeue time:")
  {
    NotOtherLabel(line, "Avg end-to-end request latency:", "Total runtime:", 0, 'A', 'T');
    NotOtherLabel(line, "Avg end-to-end request latency:", "Avg enqueue time:", 6, 'd', 'q');
    NotOtherLabel(line, "Avg end-to-end request latency:", "Avg dequeue time:", 4, 'e', 'd');
  }

  lemma {:induction false} LatencyLabel(line: string)
    requires Strip(line) == line && StartsWith(line, "Avg end-to-end request latency:")
    ensures LineLabel(line) == Some(LatencyMs)
  {
    LatencyNotOther(line);
  }

  lemma {:induction false} LatencyValue(line: string, ws: seq<string>, t: real)
    requires Strip(line) == line && Words(line) == ws
    requires ParseTimeToMs(JoinSpace(Drop(ws, 4))).Ok? && ParseTimeToMs(JoinSpace(Drop(ws, 4))).value == t
    ensures LineValue(LatencyMs, line).Ok? && LineValue(LatencyMs, line).value == t
  {
  }

  lemma {:induction false} EnqueueLineJoin(ns: real)
    ensures JoinSpace(["Avg", "enqueue", "time:"]) + " " + FmtTime(ns) == "Avg enqueue time: " + FmtTime(ns)
    ensures StartsWith("Avg enqueue time: " + FmtTime(ns), "Avg enqueue time:")
  {
    var heading := ["Avg", "enqueue", "time:"];
    assert heading[1..] == ["enqueue", "time:"];
    assert JoinSpace(heading) == "Avg enqueue time:";
    assert ("Avg enqueue time: " + FmtTime(ns))[..17] == "Avg enqueue time:";
  }

  lemma {:induction false} EnqueueLineReads(ns: real)
    ensures Reads("Avg enqueue time: " + FmtTime(ns), AvgEnqueueMs, TimeReadBack(ns))
  {
    EnqueueLineJoin(ns);
    TimeLineShape(["Avg", "enqueue", "time:"], ns);
    FmtTimeParses(ns);
    EnqueueReads("Avg enqueue time: " + FmtTime(ns), ["Avg", "enqueue", "time:"] + TimeWords(ns), TimeReadBack(ns));
  }

  lemma {:induction false} DequeueLineJoin(ns: real)
    ensures JoinSpace(["Avg", "dequeue", "time:"]) + " " + FmtTime(ns) == "Avg dequeue time: " + FmtTime(ns)
    ensures StartsWith("Avg dequeue time: " + FmtTime(ns), "Avg dequeue time:")
  {
    var heading := ["Avg", "dequeue", "time:"];
    assert heading[1..] == ["dequeue", "time:"];
    assert JoinSpace(heading) == "Avg dequeue time:";
    assert ("Avg dequeue time: " + FmtTime(ns))[..17] == "Avg dequeue time:";
  }

  lemma {:induction false} DequeueLineReads(ns: real)
    ensures Reads("Avg dequeue time: " + FmtTime(ns), AvgDequeueMs, TimeReadBack(ns))
  {
    DequeueLineJoin(ns);
    TimeLineShape(["Avg", "dequeue", "time:"], ns);
    FmtTimeParses(ns);
    DequeueLabel("Avg dequeue time: " + FmtTime(ns));
    DequeueValue("Avg dequeue time: " + FmtTime(ns), ["Avg", "dequeue", "time:"] + TimeWords(ns), TimeReadBack(ns));
  }

  lemma {:induction false} LatencyLineJoin(ns: real)
    ensures JoinSpace(["Avg", "end-to-end", "request", "latency:"]) + " " + FmtTime(ns)
      == "Avg end-to-end request latency: " + FmtTime(ns)
    ensures StartsWith("Avg end-to-end request latency: " + FmtTime(ns), "Avg end-to-end request latency:")
  {
    var heading := ["Avg", "end-to-end", "request", "latency:"];
    assert heading[1..] == ["end-to-end", "request", "latency:"];
    assert heading[1..][1..] == ["request", "latency:"];
    assert JoinSpace(heading) == "Avg end-to-end request latency:";
    assert ("Avg end-to-end request latency: " + FmtTime(ns))[..31] == "Avg end-to-end request latency:";
  }

  lemma {:induction false} LatencyLineReads(ns: real)
    ensures Reads("Avg end-to-end request latency: " + FmtTime(ns), LatencyMs, TimeReadBack(ns))
  {
    LatencyLineJoin(ns);
    TimeLineShape(["Avg", "end-to-end", "request", "latency:"], ns);
    FmtTimeParses(ns);
    LatencyLabel("Avg end-to-end request latency: " + FmtTime(ns));
    LatencyValue("Avg end-to-end request latency: " + FmtTime(ns),
      ["Avg", "end-to-end", "request", "latency:"] + TimeWords(ns), TimeReadBack(ns));
  }

  // The whole summary.

  /** One more labelled line sets its metric's entry. */
  lemma {:induction false} ScanStep(lines: seq<string>, k: nat, acc: Partial, m: Metric, x: real)
    requires k < |lines| && ScanLines(lines[..k]) == Ok(acc) && Reads(lines[k], m, x)
    ensures ScanLines(lines[..k + 1]) == Ok(acc[m := x])
  {
    KeyedScanPrefixStep(lines, k, LineLabel, LineValue, acc, m, x);
  }

  /** One more unlabelled line leaves the dictionary as it was. */
  lemma {:induction false} ScanSkip(lines: seq<string>, k: nat, acc: Partial)
    requires k < |lines| && ScanLines(lines[..k]) == Ok(acc) && LineLabel(lines[k]).None?
    ensures ScanLines(lines[..k + 1]) == Ok(acc)
  {
    KeyedScanPrefixSkip(lines, k, LineLabel, LineValue);
  }

  lemma {:induction false} WholePrefix(lines: seq<string>)
    ensures ScanLines(lines[..|lines|]) == ScanLines(lines)
  {
    assert lines[..|lines|] == lines;
  }

  /** The dictionary a summary's lines fill, in the order the summary sets its entries. */
  function SummaryMap(ms: Metrics): Partial {
    map[RuntimeMs := ms.runtimeMs][AvgEnqueueMs := ms.avgEnqueueMs][AvgDequeueMs := ms.avgDequeueMs]
      [LatencyMs := ms.latencyMs][ThroughputReqsPerSec := ms.throughputReqsPerSec]
  }

  lemma {:induction false} CompleteSummaryMap(ms: Metrics)
    ensures Complete(SummaryMap(ms)) == Ok(ms)
  {
  }

  /** The first three lines: the header, the runtime and the enqueue average. */
  lemma {:induction false} ScanSummaryHead(lines: seq<string>, ms: Metrics)
    requires |lines| == 7 && LineLabel(lines[0]).None?
    requires Reads(lines[1], RuntimeMs, ms.runtimeMs) && Reads(lines[2], AvgEnqueueMs, ms.avgEnqueueMs)
    ensures ScanLines(lines[..3]) == Ok(map[RuntimeMs := ms.runtimeMs][AvgEnqueueMs := ms.avgEnqueueMs])
  {
    assert lines[..0] == [];
    ScanSkip(lines, 0, map[]);
    ScanStep(lines, 1, map[], RuntimeMs, ms.runtimeMs);
    ScanStep(lines, 2, map[RuntimeMs := ms.runtimeMs], AvgEnqueueMs, ms.avgEnqueueMs);
  }

  /** The next two lines: the dequeue and latency averages. */
  lemma {:induction false} ScanSummaryMiddle(lines: seq<string>, ms: Metrics)
    requires |lines| == 7
    requires ScanLines(lines[..3]) == Ok(map[RuntimeMs := ms.runtimeMs][AvgEnqueueMs := ms.avgEnqueueMs])
    requires Reads(lines[3], AvgDequeueMs, ms.avgDequeueMs) && Reads(lines[4], LatencyMs, ms.latencyMs)
    ensures ScanLines(lines[..5]) == Ok(map[RuntimeMs := ms.runtimeMs][AvgEnqueueMs := ms.avgEnqueueMs]
      [AvgDequeueMs := ms.avgDequeueMs][LatencyMs := ms.latencyMs])
  {
    var two := map[RuntimeMs := ms.runtimeMs][AvgEnqueueMs := ms.avgEnqueueMs];
    ScanStep(lines, 3, two, AvgDequeueMs, ms.avgDequeueMs);
    ScanStep(lines, 4, two[AvgDequeueMs := ms.avgDequeueMs], LatencyMs, ms.latencyMs);
  }

  /** The last two lines: the throughput and the ops count. */
  lemma {:induction false} ScanSummaryTail(lines: seq<string>, ms: Metrics)
    requires |lines| == 7 && LineLabel(lines[6]).None?
    requires ScanLines(lines[..5]) == Ok(map[RuntimeMs := ms.runtimeMs][AvgEnqueueMs := ms.avgEnqueueMs]
      [AvgDequeueMs := ms.avgDequeueMs][LatencyMs := ms.latencyMs])
    requires Reads(lines[5], ThroughputReqsPerSec, ms.throughputReqsPerSec)
    ensures ScanLines(lines) == Ok(SummaryMap(ms))
  {
    var four := map[RuntimeMs := ms.runtimeMs][AvgEnqueueMs := ms.avgEnqueueMs]
      [AvgDequeueMs := ms.avgDequeueMs][LatencyMs := ms.latencyMs];
    ScanStep(lines, 5, four, ThroughputReqsPerSec, ms.throughputReqsPerSec);
    assert ScanLines(lines[..6]) == Ok(SummaryMap(ms));
    ScanSkip(lines, 6, SummaryMap(ms));
    WholePrefix(lines);
  }

  /** Seven lines laid out as the summary parse to the values their labelled lines hold. */
  lemma {:induction false} SummaryShapeParses(lines: seq<string>, ms: Metrics)
    requires |lines| == 7 && LineLabel(lines[0]).None? && LineLabel(lines[6]).None?
    requires Reads(lines[1], RuntimeMs, ms.runtimeMs) && Reads(lines[2], AvgEnqueueMs, ms.avgEnqueueMs)
    requires Reads(lines[3], AvgDequeueMs, ms.avgDequeueMs) && Reads(lines[4], LatencyMs, ms.latencyMs)
    requires Reads(lines[5], ThroughputReqsPerSec, ms.throughputReqsPerSec)
    ensures ResultFileValue(lines) == Ok(ms)
  {
    ScanSummaryHead(lines, ms);
    ScanSummaryMiddle(lines, ms);
    ScanSummaryTail(lines, ms);
    CompleteSummaryMap(ms);
  }

  /** The metrics parse_result_file reads back from a summary: each printed value rounded to two places. */
  function SummaryReadBack(c: Counters, runtimeNanos: int): Metrics
    requires runtimeNanos != 0
  {
    Metrics(Fixed2(runtimeNanos as real / 1000000.0), Fixed2(Throughput(c.processedRequests, runtimeNanos)),
            TimeReadBack(c.AvgRequestLatency()), TimeReadBack(c.AvgEnqueueTime()), TimeReadBack(c.AvgDequeueTime()))
  }

  lemma {:induction false} ReadsAt(lines: seq<string>, k: nat, line: string, m: Metric, x: real)
    requires k < |lines| && lines[k] == line && Reads(line, m, x)
    ensures Reads(lines[k], m, x)
  {
  }

  lemma {:induction false} SummaryRuntimeText(c: Counters, runtimeNanos: int)
    ensures SummaryLines(c, runtimeNanos)[1] == "Total runtime: " + FormatFixed2(runtimeNanos as real / 1000000.0) + " ms"
  {
  }

  lemma {:induction false} SummaryRuntimeRead(c: Counters, runtimeNanos: int)
    requires runtimeNanos != 0
    ensures Reads(SummaryLines(c, runtimeNanos)[1], RuntimeMs, SummaryReadBack(c, runtimeNanos).runtimeMs)
  {
    ParseFormatFixed2(runtimeNanos as real / 1000000.0);
    RuntimeLineReads(FormatFixed2(runtimeNanos as real / 1000000.0), Fixed2(runtimeNanos as real / 1000000.0));
    SummaryRuntimeText(c, runtimeNanos);
    ReadsAt(SummaryLines(c, runtimeNanos), 1,
      "Total runtime: " + FormatFixed2(runtimeNanos as real / 1000000.0) + " ms",
      RuntimeMs, Fixed2(runtimeNanos as real / 1000000.0));
  }

  lemma {:induction false} SummaryThroughputRead(c: Counters, runtimeNanos: int)
    requires runtimeNanos != 0
    ensures Reads(SummaryLines(c, runtimeNanos)[5], ThroughputReqsPerSec,
                  SummaryReadBack(c, runtimeNanos).throughputReqsPerSec)
  {
    ParseFormatFixed2(Throughput(c.processedRequests, runtimeNanos));
    ThroughputLineReads(FormatFixed2(Throughput(c.processedRequests, runtimeNanos)),
                        Fixed2(Throughput(c.processedRequests, runtimeNanos)));
  }

  lemma {:induction false} SummaryTimeTexts(c: Counters, runtimeNanos: int)
    ensures SummaryLines(c, runtimeNanos)[2] == "Avg enqueue time: " + FmtTime(c.AvgEnqueueTime())
    ensures SummaryLines(c, runtimeNanos)[3] == "Avg dequeue time: " + FmtTime(c.AvgDequeueTime())
    ensures SummaryLines(c, runtimeNanos)[4] == "Avg end-to-end request latency: " + FmtTime(c.AvgRequestLatency())
  {
  }

  lemma {:induction false} SummaryEnqueueRead(c: Counters, runtimeNanos: int)
    requires runtimeNanos != 0
    ensures Reads(SummaryLines(c, runtimeNanos)[2], AvgEnqueueMs, SummaryReadBack(c, runtimeNanos).avgEnqueueMs)
  {
    EnqueueLineReads(c.AvgEnqueueTime());
    SummaryTimeTexts(c, runtimeNanos);
    ReadsAt(SummaryLines(c, runtimeNanos), 2, "Avg enqueue time: " + FmtTime(c.AvgEnqueueTime()),
      AvgEnqueueMs, TimeReadBack(c.AvgEnqueueTime()));
  }

  lemma {:induction false} SummaryDequeueRead(c: Counters, runtimeNanos: int)
    requires runtimeNanos != 0
    ensures Reads(SummaryLines(c, runtimeNanos)[3], AvgDequeueMs, SummaryReadBack(c, runtimeNanos).avgDequeueMs)
  {
    DequeueLineReads(c.AvgDequeueTime());
    SummaryTimeTexts(c, runtimeNanos);
    ReadsAt(SummaryLines(c, runtimeNanos), 3, "Avg dequeue time: " + FmtTime(c.AvgDequeueTime()),
      AvgDequeueMs, TimeReadBack(c.AvgDequeueTime()));
  }

  lemma {:induction false} SummaryLatencyRead(c: Counters, runtimeNanos: int)
    requires runtimeNanos != 0
    ensures Reads(SummaryLines(c, runtimeNanos)[4], LatencyMs, SummaryReadBack(c, runtimeNanos).latencyMs)
  {
    LatencyLineReads(c.AvgRequestLatency());
    SummaryTimeTexts(c, runtimeNanos);
    ReadsAt(SummaryLines(c, runtimeNanos), 4,
      "Avg end-to-end request latency: " + FmtTime(c.AvgRequestLatency()),
      LatencyMs, TimeReadBack(c.AvgRequestLatency()));
  }

  /**
   * The summary printSummaryInternal writes, split into lines, is a result file that
   * parse_result_file accepts, and it reads back every printed value.
   */
  lemma {:induction false} SummaryParses(c: Counters, runtimeNanos: int)
    requires runtimeNanos != 0
    ensures ResultFileValue(SplitLines(SummaryText(c, runtimeNanos))) == Ok(SummaryReadBack(c, runtimeNanos))
  {
    SummaryLinesNoNewline(c, runtimeNanos);
    SplitJoinLines(SummaryLines(c, runtimeNanos));
    HeaderLineIgnored();
    OpsCountLineIgnored(c);
    SummaryRuntimeRead(c, runtimeNanos);
    SummaryEnqueueRead(c, runtimeNanos);
    SummaryDequeueRead(c, runtimeNanos);
    SummaryLatencyRead(c, runtimeNanos);
    SummaryThroughputRead(c, runtimeNanos);
    SummaryShapeParses(SummaryLines(c, runtimeNanos), SummaryReadBack(c, runtimeNanos));
  }

  /** Every value read back from a summary is within the rounding of two printed decimals. */
  lemma {:induction false} SummaryReadBackClose(c: Counters, runtimeNanos: int)
    requires runtimeNanos != 0
    ensures var ms := SummaryReadBack(c, runtimeNanos);
      && -0.005 <= ms.runtimeMs - runtimeNanos as real / 1000000.0 <= 0.005
      && -0.005 <= ms.throughputReqsPerSec - Throughput(c.processedRequests, runtimeNanos) <= 0.005
      && -0.005 <= ms.avgEnqueueMs - c.AvgEnqueueTime() / 1000000.0 <= 0.005
      && -0.005 <= ms.avgDequeueMs - c.AvgDequeueTime() / 1000000.0 <= 0.005
      && -0.005 <= ms.latencyMs - c.AvgRequestLatency() / 1000000.0 <= 0.005
  {
    Fixed2Close(runtimeNanos as real / 1000000.0);
    Fixed2Close(Throughput(c.processedRequests, runtimeNanos));
    TimeReadBackClose(c.AvgEnqueueTime());
    TimeReadBackClose(c.AvgDequeueTime());
    TimeReadBackClose(c.AvgRequestLatency());
  }
}
