/**
 * The benchmark side of the result-file format: the recorder the queue
 * workers report their timings to, and the summary text it prints and saves.
 */
module Recorder {
  import opened Results
  import opened Text
  import opened Decimal

  /** The eight counters of a MetricsRecorder at one moment. */
  datatype Counters = Counters(
    totalEnqTime: int, totalDeqTime: int, totalReqLatency: int,
    enqOps: nat, deqOps: nat, processedRequests: nat,
    controlEnqOps: nat, controlDeqOps: nat)
  {
    /** getAvgEnqueueTime: the enqueue time total over the regular enqueues only. */
    function AvgEnqueueTime(): real {
      SafeDivide(totalEnqTime, enqOps)
    }

    /** getAvgDequeueTime: the dequeue time total over the regular dequeues only. */
    function AvgDequeueTime(): real {
      SafeDivide(totalDeqTime, deqOps)
    }

    /** getAvgRequestLatency: the latency total over the processed requests. */
    function AvgRequestLatency(): real {
      SafeDivide(totalReqLatency, processedRequests)
    }
  }

  const NO_COUNTS := Counters(0, 0, 0, 0, 0, 0, 0, 0)

  /** safeDivide: zero for a zero denominator, the exact quotient otherwise. */
  function SafeDivide(num: int, denom: int): (q: real)
    ensures denom == 0 ==> q == 0.0
  {
    if denom == 0 then 0.0 else (num as real) / (denom as real)
  }

  /** With a nonzero denominator, the quotient times the denominator gives back the numerator. */
  lemma {:induction false} SafeDivideInverts(num: int, denom: int)
    requires denom != 0
    ensures SafeDivide(num, denom) * (denom as real) == num as real
  {
  }

  /**
   * The counters of one benchmark run. Each record method adds one timing to
   * a total and counts one operation; the control variants count apart but
   * share the time total with the regular operations.
   */
  class MetricsRecorder {
    var totalEnqTime: int
    var totalDeqTime: int
    var totalReqLatency: int
    var enqOps: nat
    var deqOps: nat
    var processedRequests: nat
    var controlEnqOps: nat
    var controlDeqOps: nat

    function Snapshot(): Counters
      reads this
    {
      Counters(totalEnqTime, totalDeqTime, totalReqLatency, enqOps, deqOps,
               processedRequests, controlEnqOps, controlDeqOps)
    }

    /** Every counter starts at zero. */
    constructor()
      ensures Snapshot() == NO_COUNTS
    {
      totalEnqTime, totalDeqTime, totalReqLatency := 0, 0, 0;
      enqOps, deqOps, processedRequests := 0, 0, 0;
      controlEnqOps, controlDeqOps := 0, 0;
    }

    method RecordEnqueue(nanos: int)
      modifies this
      ensures Snapshot() == old(Snapshot()).(totalEnqTime := old(totalEnqTime) + nanos, enqOps := old(enqOps) + 1)
    {
      totalEnqTime := totalEnqTime + nanos;
      enqOps := enqOps + 1;
    }

    method RecordControlEnqueue(nanos: int)
      modifies this
      ensures Snapshot() == old(Snapshot()).(totalEnqTime := old(totalEnqTime) + nanos, controlEnqOps := old(controlEnqOps) + 1)
    {
      totalEnqTime := totalEnqTime + nanos;
      controlEnqOps := controlEnqOps + 1;
    }

    method RecordDequeue(nanos: int)
      modifies this
      ensures Snapshot() == old(Snapshot()).(totalDeqTime := old(totalDeqTime) + nanos, deqOps := old(deqOps) + 1)
    {
      totalDeqTime := totalDeqTime + nanos;
      deqOps := deqOps + 1;
    }

    method RecordControlDequeue(nanos: int)
      modifies this
      ensures Snapshot() == old(Snapshot()).(totalDeqTime := old(totalDeqTime) + nanos, controlDeqOps := old(controlDeqOps) + 1)
    {
      totalDeqTime := totalDeqTime + nanos;
      controlDeqOps := controlDeqOps + 1;
    }

    method RecordRequestLatency(nanos: int)
      modifies this
      ensures Snapshot() == old(Snapshot()).(totalReqLatency := old(totalReqLatency) + nanos, processedRequests := old(processedRequests) + 1)
    {
      totalReqLatency := totalReqLatency + nanos;
      processedRequests := processedRequests + 1;
    }

    /**
     * printSummaryInternal: the summary built line by line; always echoed to
     * the console, and saved under pathPrefix + "_results_" + timestamp +
     * ".txt" when a prefix is given. The wall-clock timestamp is a parameter.
     */
    method PrintSummaryInternal(totalRuntimeNanos: int, pathPrefix: Option<string>, timestamp: string)
      returns (console: string, saved: Option<SavedFile>)
      ensures console == SummaryText(Snapshot(), totalRuntimeNanos) + "\n"
        + (if pathPrefix.Some? then "Results written to: " + ResultFileName(pathPrefix.value, timestamp) + "\n\n" else "")
      ensures saved == if pathPrefix.Some?
        then Some(SavedFile(ResultFileName(pathPrefix.value, timestamp), SummaryText(Snapshot(), totalRuntimeNanos)))
        else None
    {
      var c := Snapshot();
      var sb := AppendLines(SummaryLines(c, totalRuntimeNanos));
      var note := "";
      if pathPrefix.Some? {
        var filename := ResultFileName(pathPrefix.value, timestamp);
        saved := Some(SavedFile(filename, sb));
        note := "Results written to: " + filename + "\n\n";
      } else {
        saved := None;
      }
      console := sb + "\n" + note;
    }

    /** printSummary: the console only. */
    method PrintSummary(totalRuntimeNanos: int) returns (console: string)
      ensures console == SummaryText(Snapshot(), totalRuntimeNanos) + "\n"
    {
      var saved;
      console, saved := PrintSummaryInternal(totalRuntimeNanos, None, "");
    }

    /** printSummaryToFile: the console and the saved result file. */
    method PrintSummaryToFile(pathPrefix: string, totalRuntimeNanos: int, timestamp: string)
      returns (console: string, saved: SavedFile)
      ensures saved == SavedFile(ResultFileName(pathPrefix, timestamp), SummaryText(Snapshot(), totalRuntimeNanos))
      ensures console == SummaryText(Snapshot(), totalRuntimeNanos) + "\n" + ("Results written to: " + saved.name + "\n\n")
    {
      var s;
      console, s := PrintSummaryInternal(totalRuntimeNanos, Some(pathPrefix), timestamp);
      saved := s.value;
    }
  }

  /** A saved result file: its name and its whole text. */
  datatype SavedFile = SavedFile(name: string, contents: string)

  function ResultFileName(pathPrefix: string, timestamp: string): string {
    pathPrefix + "_results_" + timestamp + ".txt"
  }

  // ---------------- Formatting ----------------

  /** The three units fmtTime prints in. */
  datatype TimeUnit = Millis | Micros | Nanos {
    function Symbol(): string {
      match this
      case Millis => "ms"
      case Micros => "\U{B5}s"
      case Nanos => "ns"
    }

    function NanosPer(): real {
      match this
      case Millis => 1000000.0
      case Micros => 1000.0
      case Nanos => 1.0
    }
  }

  /** The unit fmtTime picks: the largest whose size the value reaches, nanoseconds below a microsecond. */
  function UnitFor(ns: real): (u: TimeUnit)
    ensures u.NanosPer() <= ns || u == Nanos
    ensures u != Millis ==> ns < 1000000.0
    ensures u == Nanos ==> ns < 1000.0
  {
    if ns >= 1000000.0 then Millis else if ns >= 1000.0 then Micros else Nanos
  }

  /** fmtTime: the value in the chosen unit with two decimals, a space, the unit. */
  function FmtTime(ns: real): string {
    var u := UnitFor(ns);
    FormatFixed2(ns / u.NanosPer()) + " " + u.Symbol()
  }

  /**
   * The throughput when printed with %.2f: requests per second of runtime;
   * with a zero runtime the double division gives Infinity, or NaN when no
   * request was processed either.
   */
  function FormatThroughput(processed: nat, runtimeNanos: int): string {
    if runtimeNanos == 0 then (if processed == 0 then "NaN" else "Infinity")
    else FormatFixed2(processed as real / (runtimeNanos as real / 1000000000.0))
  }

  /** The lines of the summary, in the order printSummaryInternal appends them. */
  function SummaryLines(c: Counters, runtimeNanos: int): seq<string> {
    SummaryLayout(FormatFixed2(runtimeNanos as real / 1000000.0),
      FmtTime(c.AvgEnqueueTime()), FmtTime(c.AvgDequeueTime()), FmtTime(c.AvgRequestLatency()),
      FormatThroughput(c.processedRequests, runtimeNanos), OpsCountLine(c))
  }

  /** The summary's format strings, filled in with the formatted values. */
  function SummaryLayout(runtime: string, enqueue: string, dequeue: string, latency: string,
                         throughput: string, opsCount: string): seq<string> {
    [ "==== Simulation Summary ====",
      "Total runtime: " + runtime + " ms",
      "Avg enqueue time: " + enqueue,
      "Avg dequeue time: " + dequeue,
      "Avg end-to-end request latency: " + latency,
      "Throughput: " + throughput + " reqs/sec",
      opsCount ]
  }

  function OpsCountLine(c: Counters): string {
    "Ops count  \U{2192} Enq: " + NatToString(c.enqOps) + " (+" + NatToString(c.controlEnqOps)
      + " control)  Deq: " + NatToString(c.deqOps) + " (+" + NatToString(c.controlDeqOps)
      + " control)  Processed: " + NatToString(c.processedRequests)
  }

  /** The StringBuilder's text: each line followed by %n. */
  function SummaryText(c: Counters, runtimeNanos: int): string {
    JoinLines(SummaryLines(c, runtimeNanos))
  }

  // ---------------- Properties ----------------

  lemma {:induction false} FmtTimeNoNewline(ns: real)
    ensures NoNewline(FmtTime(ns))
  {
    var u := UnitFor(ns);
    NoNewlineConcat(FormatFixed2(ns / u.NanosPer()), " ");
    NoNewlineConcat(FormatFixed2(ns / u.NanosPer()) + " ", u.Symbol());
  }

  lemma {:induction false} OpsCountLineNoNewline(c: Counters)
    ensures NoNewline(OpsCountLine(c))
  {
    var a, b, d, e, f := NatToString(c.enqOps), NatToString(c.controlEnqOps),
      NatToString(c.deqOps), NatToString(c.controlDeqOps), NatToString(c.processedRequests);
    DigitsNoNewline(a);
    DigitsNoNewline(b);
    DigitsNoNewline(d);
    DigitsNoNewline(e);
    DigitsNoNewline(f);
    var s1 := "Ops count  \U{2192} Enq: " + a;
    NoNewlineConcat("Ops count  \U{2192} Enq: ", a);
    NoNewlineConcat(s1, " (+");
    NoNewlineConcat(s1 + " (+", b);
    var s2 := s1 + " (+" + b;
    NoNewlineConcat(s2, " control)  Deq: ");
    NoNewlineConcat(s2 + " control)  Deq: ", d);
    var s3 := s2 + " control)  Deq: " + d;
    NoNewlineConcat(s3, " (+");
    NoNewlineConcat(s3 + " (+", e);
    var s4 := s3 + " (+" + e;
    NoNewlineConcat(s4, " control)  Processed: ");
    NoNewlineConcat(s4 + " control)  Processed: ", f);
  }

  lemma {:induction false} ThroughputNoNewline(processed: nat, runtimeNanos: int)
    ensures NoNewline(FormatThroughput(processed, runtimeNanos))
  {
    if runtimeNanos == 0 {
      assert NoNewline("NaN") && NoNewline("Infinity");
    }
  }

  lemma {:induction false} HeaderLineNoNewline()
    ensures NoNewline("==== Simulation Summary ====")
  {
  }

  /** Filled with values free of line breaks, the layout's lines are free of them too. */
  lemma {:induction false} SummaryLayoutNoNewline(runtime: string, enqueue: string, dequeue: string,
                                                  latency: string, throughput: string, opsCount: string)
    requires NoNewline(runtime) && NoNewline(enqueue) && NoNewline(dequeue)
    requires NoNewline(latency) && NoNewline(throughput) && NoNewline(opsCount)
    ensures var lines := SummaryLayout(runtime, enqueue, dequeue, latency, throughput, opsCount);
      |lines| == 7 && forall i :: 0 <= i < |lines| ==> NoNewline(lines[i])
  {
    HeaderLineNoNewline();
    NoNewlineConcat("Total runtime: ", runtime);
    NoNewlineConcat("Total runtime: " + runtime, " ms");
    NoNewlineConcat("Avg enqueue time: ", enqueue);
    NoNewlineConcat("Avg dequeue time: ", dequeue);
    NoNewlineConcat("Avg end-to-end request latency: ", latency);
    NoNewlineConcat("Throughput: ", throughput);
    NoNewlineConcat("Throughput: " + throughput, " reqs/sec");
    NoNewlineSeven("==== Simulation Summary ====", "Total runtime: " + runtime + " ms",
      "Avg enqueue time: " + enqueue, "Avg dequeue time: " + dequeue,
      "Avg end-to-end request latency: " + latency, "Throughput: " + throughput + " reqs/sec", opsCount);
  }

  /** No summary line contains a line break, so the saved text reads back as these seven lines. */
  lemma {:induction false} SummaryLinesNoNewline(c: Counters, runtimeNanos: int)
    ensures var lines := SummaryLines(c, runtimeNanos);
      |lines| == 7 && forall i :: 0 <= i < |lines| ==> NoNewline(lines[i])
  {
    FmtTimeNoNewline(c.AvgEnqueueTime());
    FmtTimeNoNewline(c.AvgDequeueTime());
    FmtTimeNoNewline(c.AvgRequestLatency());
    ThroughputNoNewline(c.processedRequests, runtimeNanos);
    OpsCountLineNoNewline(c);
    SummaryLayoutNoNewline(FormatFixed2(runtimeNanos as real / 1000000.0),
      FmtTime(c.AvgEnqueueTime()), FmtTime(c.AvgDequeueTime()), FmtTime(c.AvgRequestLatency()),
      FormatThroughput(c.processedRequests, runtimeNanos), OpsCountLine(c));
  }

  /**
   * Before any record call of the matching kind, an average is zero, whatever
   * else was recorded: control records add to a time total but not to its count.
   */
  lemma {:induction false} AveragesZeroUntilCounted(c: Counters)
    ensures c.enqOps == 0 ==> c.AvgEnqueueTime() == 0.0
    ensures c.deqOps == 0 ==> c.AvgDequeueTime() == 0.0
    ensures c.processedRequests == 0 ==> c.AvgRequestLatency() == 0.0
  {
  }

  /**
   * A control enqueue's time enters the enqueue average's numerator but not
   * its denominator: with regular enqueues already counted, it raises the
   * average by nanos / enqOps.
   */
  lemma {:induction false} ControlEnqueueSkewsAverage(c: Counters, nanos: int)
    requires c.enqOps > 0
    ensures var after := c.(totalEnqTime := c.totalEnqTime + nanos, controlEnqOps := c.controlEnqOps + 1);
      after.AvgEnqueueTime() == c.AvgEnqueueTime() + (nanos as real) / (c.enqOps as real)
  {
  }

  /** The same for a control dequeue and the dequeue average. */
  lemma {:induction false} ControlDequeueSkewsAverage(c: Counters, nanos: int)
    requires c.deqOps > 0
    ensures var after := c.(totalDeqTime := c.totalDeqTime + nanos, controlDeqOps := c.controlDeqOps + 1);
      after.AvgDequeueTime() == c.AvgDequeueTime() + (nanos as real) / (c.deqOps as real)
  {
  }

  /** The printed number of fmtTime is the value scaled by the chosen unit, and the unit is one word. */
  lemma {:induction false} FmtTimeWords(ns: real)
    ensures var u := UnitFor(ns);
      Words(FmtTime(ns)) == [FormatFixed2(ns / u.NanosPer()), u.Symbol()]
  {
    var u := UnitFor(ns);
    var number := FormatFixed2(ns / u.NanosPer());
    assert FmtTime(ns) == JoinSpace([number, u.Symbol()]);
    WordsOfJoin([number, u.Symbol()]);
  }
}
