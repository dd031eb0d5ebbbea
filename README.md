# Concurrent queue benchmark: result files and their analysis

The benchmark runs a set of concurrent queues (lock-based, lock-free, batched)
under producer/consumer workloads. Each run reports its timings to a
`MetricsRecorder`, which prints a summary and saves it as
`<queue>_results_<timestamp>.txt` in a directory named
`threads_<T>_<R>_reqPerClient`. The analysis script walks those directories,
parses every result file into one row, writes the rows to CSV files (all rows
together, then one file per workload) and draws one chart per metric and
workload, with one line per queue.

This project models both sides of that text format and the records whose
timestamps feed it:

- `analyze_results.dfy` (module `AnalyzeResults`): the analysis pipeline.
  The parsers, `parse_result_file`, `gather_results`, `write_csv`,
  `write_per_workload_csvs`, `plot_metric`, `generate_all_plots` and `main`.
  The directory walk is an input sequence of `WalkEntry(dirname, files)`. Here
  `dirname` is the base name of the walked directory, and each file is given
  by its base name and its lines. What would be written is returned: CSV files
  as their name and rows in order, charts as their metric, workload, y label
  and series.
- `metrics.dfy` (module `Recorder`): `MetricsRecorder` as a class with the
  eight counters, its record methods and averages, `fmtTime`, the summary text
  and the result file name.
- `timing.dfy` (module `Timing`): `Message` and `Request` as classes. Clock
  readings (`System.nanoTime`) are parameters.
- `roundtrip.dfy` (module `RoundTrip`): the cross-file properties.
  - The directory names built by the benchmark runner parse back to their
    numbers.
  - The result file names parse back to their queue name.
  - Every unit `fmtTime` prints is one the analysis accepts.
  - Every summary the recorder writes parses, and each metric is read back
    within 0.005 of the exact value.
- Support modules:
  - `text.dfy`: Python's `strip`/`split`, substring search, digits and lines.
  - `decimal.dfy`: Java's `%.2f` and Python's `float()` on decimal text.
  - `ordering.dfy`: the stable `sorted`, `defaultdict` grouping, and the tuple
    and string order.
  - `folds.dfy`: concatenating maps, an error-stopping traversal and the keyed
    scan of the result file loop.
  - `results.dfy`: `Option` and `Result`.

Numbers are exact `real`s. Java's `%.2f` is modelled as rounding half up to
two decimals, and Python's `float()` as a reader of plain decimal text.
Counters and totals are unbounded integers. Java `long` arithmetic is written
out where a subtraction can wrap (`getLatencyNanos`).

The rows of the combined CSV file are a permutation of the gathered rows,
ordered by `(requests_per_client, threads, queue)`, and stable. The queue
component uses code-point string order. The queue name of a result file reads
back only when the name contains no `_results_` *and* does not end in
`_results`. A name such as `a_results` followed by `_results_<timestamp>.txt`
contains `_results_` earlier than the appended separator, so its queue name
would be cut at `a`. `RoundTrip.ResultFileNameParses` therefore requires both
conditions.

## Model

| member | source | states |
|---|---|---|
| AnalyzeResults.ParseTimeToMs | src/analysis/analyze_results.py:41-54 | the value is accepted iff the stripped text is exactly two words, a decimal number then `ms`, `µs` or `ns`; it is returned unchanged for ms, divided by 1000 for µs and by 1,000,000 for ns; otherwise the error names the wrong word count, the bad number or the unknown unit, in that order of checking |
| AnalyzeResults.PatternParses | src/analysis/analyze_results.py:57-61 | every name `threads_<digits>_<digits>_reqPerClient` parses to the two numbers the digit strings denote, leading zeros included |
| AnalyzeResults.ParsedMatchesPattern | src/analysis/analyze_results.py:35 | only a full match of `threads_(\d+)_(\d+)_reqPerClient` parses, and it parses to the numbers of the two groups |
| AnalyzeResults.ParseQueueName | src/analysis/analyze_results.py:64-65 | the queue name is the text before the first `_results_`: a prefix of the file name, with no occurrence of `_results_` starting inside it, followed by `_results_` when the file name has one, and the whole name when it has none |
| AnalyzeResults.CompleteKeepsValues | src/analysis/analyze_results.py:96-99 | the record is built iff all five metrics were set, and it holds exactly the values set |
| AnalyzeResults.ParseResultFile | src/analysis/analyze_results.py:68-99 | the loop over the stripped lines, filling the metrics dictionary and stopping at the first value that does not parse, returns what the scan over the lines followed by the completeness check gives |
| AnalyzeResults.ResultFileOk | src/analysis/analyze_results.py:68-99 | a file parses iff every labelled line's value parses and each of the five labels occurs at least once; so it never returns a partial record |
| AnalyzeResults.LastOccurrenceWins | src/analysis/analyze_results.py:78-94 | when a label occurs on several lines, the parsed record holds the value of the last of them |
| AnalyzeResults.MissingLabelFails | src/analysis/analyze_results.py:96-97 | a file in which some metric's label never occurs is rejected |
| AnalyzeResults.UnlabelledLineIgnored | src/analysis/analyze_results.py:81-94 | inserting a line that carries none of the five labels anywhere in a file does not change the outcome |
| AnalyzeResults.GatherResults | src/analysis/analyze_results.py:105-133 | the nested loop over directories and files returns the rows of all candidate files in walk order, or the error of the first candidate file that does not parse |
| AnalyzeResults.GatherStopsAt | src/analysis/analyze_results.py:124 | an error in a file aborts the walk with that error, whatever follows |
| AnalyzeResults.GatherFailsAtFirst | src/analysis/analyze_results.py:108-131 | a failed walk reports the error of the first candidate file that does not parse, all earlier candidates having parsed |
| AnalyzeResults.CandidateSource | src/analysis/analyze_results.py:108-121 | every parsed file comes from a listed directory whose name matches the pattern with the candidate's (threads, reqs), whose thread count is 4, 8 or 16, and its name contains `_results_` |
| AnalyzeResults.DirCandidatesCount | src/analysis/analyze_results.py:119-121 | a qualifying directory yields one candidate per occurrence of a file with `_results_` in its name, duplicates kept, and none for other files |
| AnalyzeResults.GatherRowsStamped | src/analysis/analyze_results.py:123-131 | gathering succeeds iff every candidate file parses; then there is one row per candidate, in order, stamped with its directory's threads and reqs, its file's queue name and its file's metrics |
| AnalyzeResults.CsvKeyOrder | src/analysis/analyze_results.py:149 | comparing the sort keys is comparing requests_per_client, then threads, then the queue name lexicographically |
| AnalyzeResults.WriteCsv | src/analysis/analyze_results.py:136-152 | the file is written under the given name with the rows in sorted order |
| AnalyzeResults.CsvRowsOrdered | src/analysis/analyze_results.py:149-150 | the written rows are a permutation of the input, nondecreasing in (requests_per_client, threads, queue), and rows with equal keys keep their input order |
| AnalyzeResults.WritePerWorkloadCsvs | src/analysis/analyze_results.py:155-162 | grouping by workload and writing each group with write_csv gives one file per workload, in first-appearance order, holding that workload's rows sorted as in the combined CSV |
| AnalyzeResults.WorkloadCsvsPartition | src/analysis/analyze_results.py:156-162 | each file holds only rows of its own workload, every row is in some file, and no two files share a name |
| AnalyzeResults.WorkloadCsvsOwnRows | src/analysis/analyze_results.py:156-158 | a row in a per-workload file has that file's workload |
| AnalyzeResults.WorkloadCsvsCover | src/analysis/analyze_results.py:156-158 | every row is in some per-workload file |
| AnalyzeResults.WorkloadCsvsDistinctNames | src/analysis/analyze_results.py:160-161 | the per-workload files have pairwise distinct names |
| AnalyzeResults.WorkloadFileNamesDistinct | src/analysis/analyze_results.py:161 | different workloads give different `aggregate_{reqs}_reqPerClient.csv` names |
| AnalyzeResults.WorkloadCsvsKeepRows | src/analysis/analyze_results.py:156-162 | the per-workload files together hold every row exactly once |
| AnalyzeResults.PlotMetric | src/analysis/analyze_results.py:168-193 | the chart has one series per queue, in first-appearance order, each that queue's rows sorted by threads, with the threads as x and the metric as y |
| AnalyzeResults.ThreadsKeyOrder | src/analysis/analyze_results.py:179 | the per-queue sort key compares thread counts |
| AnalyzeResults.SeriesAscending | src/analysis/analyze_results.py:179-180 | a series' x values never decrease |
| AnalyzeResults.SeriesFromRows | src/analysis/analyze_results.py:180-181 | every point of a series is the (threads, metric) pair of one of its queue's rows |
| AnalyzeResults.SeriesCoversRows | src/analysis/analyze_results.py:178-181 | every row of the queue gives a point of its series |
| AnalyzeResults.SeriesPoints | src/analysis/analyze_results.py:178-182 | a series is labelled with its queue and has as many x and y values as the queue has rows, x ascending, each point from a row and each row a point |
| AnalyzeResults.ChartLinesByQueue | src/analysis/analyze_results.py:172-178 | a chart's series have distinct labels, every row's queue has a series, and each series is drawn from exactly the rows of its queue |
| AnalyzeResults.GenerateAllPlots | src/analysis/analyze_results.py:196-206 | for each workload in first-appearance order, the five charts of that workload's rows |
| AnalyzeResults.AllChartsIndex | src/analysis/analyze_results.py:201-206 | there are five charts per workload, and chart 5i+k shows metric k (runtime, throughput, latency, enqueue, dequeue) for the i-th workload, with its y label, from that workload's rows only |
| AnalyzeResults.WorkloadChartAt | src/analysis/analyze_results.py:202-206 | the k-th chart of a workload is the k-th metric's chart with that metric's y label |
| AnalyzeResults.RunAnalysis | src/analysis/analyze_results.py:212-222 | gather, stop when no rows; otherwise the combined CSV, the per-workload CSVs and the charts |
| AnalyzeResults.AnalysisOutcome | src/analysis/analyze_results.py:212-220 | a run fails iff gathering fails, stops early iff no row was gathered, and otherwise writes `all_results_filtered.csv` with every row, one more CSV per workload and five charts per workload |
| Ordering.GroupBy | src/analysis/analyze_results.py:156-158 | the defaultdict's keys in first-appearance order (each key's first element comes before the next key's), each with the elements of that key in input order |
| Ordering.SortByPermutes | src/analysis/analyze_results.py:149 | sorting is a permutation of the input |
| Ordering.SortBySorted | src/analysis/analyze_results.py:149 | the sorted sequence is nondecreasing in its key |
| Ordering.SortByStable | src/analysis/analyze_results.py:149 | the elements of any one key keep their input order |
| Ordering.ConcatGroupsIsPermutation | src/analysis/analyze_results.py:157-160 | the groups of the distinct keys, put end to end, hold every element exactly once |
| Text.SplitJoinLines | src/analysis/analyze_results.py:78 | reading back lines written each followed by a line break gives exactly those lines, when none of them contains a line break |
| Text.AppendLines | src/core/MetricsRecorder.java:91-102 | appending each line and a line break in turn builds the lines joined with line terminators |
| Decimal.FormatFixed2 | src/core/MetricsRecorder.java:93 | `%.2f` yields one token with no whitespace and no line break |
| Decimal.Fixed2Close | src/core/MetricsRecorder.java:93 | the two-decimal value printed is within 0.005 of the exact value |
| Decimal.ParseFormatFixed2 | src/analysis/analyze_results.py:82 | reading a `%.2f` text with `float()` gives the rounded value back |
| Recorder.SafeDivide | src/core/MetricsRecorder.java:54-56 | the quotient is zero when the denominator is zero |
| Recorder.SafeDivideInverts | src/core/MetricsRecorder.java:54-56 | with a nonzero denominator, the quotient times the denominator is the numerator |
| Recorder.AveragesZeroUntilCounted | src/core/MetricsRecorder.java:54-60 | each average is zero while its own operation count is zero, whatever the time totals hold, so a recorder that has seen only control records still reports zero |
| Recorder.MetricsRecorder.constructor | src/core/MetricsRecorder.java:14-23 | all eight counters start at zero |
| Recorder.MetricsRecorder.RecordEnqueue | src/core/MetricsRecorder.java:27-30 | adds the time to the enqueue total and one to the enqueue count; nothing else changes |
| Recorder.MetricsRecorder.RecordControlEnqueue | src/core/MetricsRecorder.java:32-35 | adds the time to the shared enqueue total and one to the control enqueue count only; nothing else changes |
| Recorder.MetricsRecorder.RecordDequeue | src/core/MetricsRecorder.java:37-40 | adds the time to the dequeue total and one to the dequeue count; nothing else changes |
| Recorder.MetricsRecorder.RecordControlDequeue | src/core/MetricsRecorder.java:42-45 | adds the time to the shared dequeue total and one to the control dequeue count only; nothing else changes |
| Recorder.MetricsRecorder.RecordRequestLatency | src/core/MetricsRecorder.java:47-50 | adds the latency to its total and one to the processed count; nothing else changes |
| Recorder.ControlEnqueueSkewsAverage | src/core/MetricsRecorder.java:58 | a control enqueue raises the enqueue average by its time over the regular count: numerator but not denominator |
| Recorder.ControlDequeueSkewsAverage | src/core/MetricsRecorder.java:59 | the same for a control dequeue and the dequeue average |
| Recorder.UnitFor | src/core/MetricsRecorder.java:64-68 | ms when the value reaches 1,000,000 ns, µs when it reaches 1,000 ns, ns below |
| Recorder.FmtTimeWords | src/core/MetricsRecorder.java:64-68 | the formatted time is two words: the value divided by the chosen unit's size with two decimals, then the unit |
| Recorder.SummaryLinesNoNewline | src/core/MetricsRecorder.java:91-102 | the summary has seven lines, none containing a line break |
| Recorder.MetricsRecorder.PrintSummaryInternal | src/core/MetricsRecorder.java:86-125 | the console gets the summary, then the `Results written to:` note when a prefix is given; the file `prefix_results_timestamp.txt` is saved with the summary exactly when a prefix is given |
| Recorder.MetricsRecorder.PrintSummary | src/core/MetricsRecorder.java:71-73 | console only, nothing saved |
| Recorder.MetricsRecorder.PrintSummaryToFile | src/core/MetricsRecorder.java:80-82 | the summary is saved under the prefixed name and echoed with the note |
| RoundTrip.WorkloadDirNameParses | src/core/AutoBenchmarkRunner.java:41 | the directory name built for any producer count and requests per client parses back to those two numbers |
| RoundTrip.ResultFileNameParses | src/core/MetricsRecorder.java:111 | a result file name is picked up by the analysis, and its queue name is the prefix it was built from, when that prefix has no `_results_` and does not end in `_results` |
| RoundTrip.UnitsAccepted | src/core/MetricsRecorder.java:64-68 | every unit fmtTime prints is accepted by parse_time_to_ms |
| RoundTrip.FmtTimeParses | src/analysis/analyze_results.py:41-54 | every fmtTime text parses, to the printed value converted back to milliseconds |
| RoundTrip.TimeReadBackClose | src/core/MetricsRecorder.java:64-68 | the milliseconds read back from fmtTime are within 0.005 ms of the exact time, and within 0.000005 ms below a millisecond |
| RoundTrip.HeaderLineIgnored | src/core/MetricsRecorder.java:92 | the summary's header line carries none of the five labels |
| RoundTrip.OpsCountLineIgnored | src/core/MetricsRecorder.java:98-102 | the ops count line carries none of the five labels |
| RoundTrip.RuntimeLineReads | src/core/MetricsRecorder.java:93 | the runtime line is labelled as the runtime and its third word is the value |
| RoundTrip.EnqueueLineReads | src/core/MetricsRecorder.java:94 | the enqueue line is labelled as the enqueue time, and what follows its label parses to the printed time in ms |
| RoundTrip.DequeueLineReads | src/core/MetricsRecorder.java:95 | the same for the dequeue line |
| RoundTrip.LatencyLineReads | src/core/MetricsRecorder.java:96 | the same for the latency line, value after the fourth word |
| RoundTrip.ThroughputLineReads | src/core/MetricsRecorder.java:97 | the throughput line is labelled as the throughput and its second word is the value |
| RoundTrip.SummaryShapeParses | src/analysis/analyze_results.py:68-99 | seven lines with an unlabelled first and last line and the five labelled values in between parse to exactly those values |
| RoundTrip.SummaryParses | src/core/MetricsRecorder.java:91-102 | the saved summary text, read line by line, parses, to the printed values converted to ms |
| RoundTrip.SummaryReadBackClose | src/core/MetricsRecorder.java:87-97 | each metric read back from a summary is within 0.005 of the exact value: the runtime and the three averages in ms, the throughput in requests per second |
| Timing.WrapLong | src/core/Message.java:38 | Java long arithmetic: the value congruent modulo 2^64 in the long range, the value itself when it fits |
| Timing.Latency | src/core/Message.java:36-39 | zero when either timestamp is zero; otherwise the difference modulo 2^64, the exact difference when it fits in a long |
| Timing.Message.PoisonPill | src/core/Message.java:16-18 | a new message with id -1, payload `__POISON__`, poisoned, and no timestamps set |
| Timing.Message.constructor | src/core/Message.java:20-22 | keeps id and payload, is not poisoned, records the creation time, no timestamps set |
| Timing.Message.WithPoison | src/core/Message.java:24-29 | keeps id, payload and the poison flag, records the creation time |
| Timing.Message.MarkEnqueued | src/core/Message.java:33 | sets the enqueue time and leaves the dequeue time alone; the other fields are constants |
| Timing.Message.MarkDequeued | src/core/Message.java:34 | sets the dequeue time and leaves the enqueue time alone |
| Timing.Message.LatencyNanos | src/core/Message.java:36-39 | zero while either timestamp is zero, otherwise the dequeue time minus the enqueue time in `long` arithmetic: congruent to it modulo 2^64, and equal to it when it fits |
| Timing.Request.constructor | src/simulation/Request.java:11-15 | keeps id and payload, records the creation time, no timestamps set |
| Timing.Request.MarkEnqueued | src/simulation/Request.java:20 | sets the enqueue time and leaves the dequeue time alone |
| Timing.Request.MarkDequeued | src/simulation/Request.java:21 | sets the dequeue time and leaves the enqueue time alone |
| Timing.Request.LatencyNanos | src/simulation/Request.java:23-26 | zero while either timestamp is zero, otherwise the dequeue time minus the enqueue time in `long` arithmetic: congruent to it modulo 2^64, and equal to it when it fits |

`id`, `payload`, `createdAt` and `poison` are `const` fields of `Message`
(and `id`, `payload`, `createdAt` of `Request`). So they cannot change after
construction (src/core/Message.java:5-14). The getters
(src/core/Message.java:41-45, src/simulation/Request.java:17-18) are those
fields themselves.

## Left out

- File I/O in the analysis: `os.walk`, `open`, `os.makedirs` and the CSV
  writer's text. The walk is an input and the files are returned values. The
  walk's directory order is whatever the input sequence lists. CSV cells are
  not rendered as text.
- Plot rendering: all matplotlib calls. A chart keeps its series, path, title
  and axis labels as data.
- All `print` diagnostics: `[Skip]`, `[CSV]`, `[Plot]`, the no-rows message and
  the final message.
- The console and file output of the recorder is returned as strings, not
  written. The `IOException` path, where saving fails and an error is printed,
  is not modelled: saving always succeeds. Nor is the `NullPointerException`
  that `Files.createDirectories` throws when the path prefix has no directory
  part (src/core/MetricsRecorder.java:114), which that `catch` does not catch;
  the benchmark runner always passes a prefix with a directory
  (src/core/AutoBenchmarkRunner.java:111-112).
- The clock and the timestamp (`System.nanoTime`, `SimpleDateFormat`) are
  parameters.
- `AtomicLong` atomicity and all concurrency: the recorder is sequential. The
  queues, locks and thread orchestration are not part of this model.
- Recorder.MetricsRecorder.RecordEnqueue: the `long` counters and totals are
  unbounded integers, so 64-bit overflow is not modelled. The same holds for
  the other record methods.
- Decimal.FormatFixed2: Java's `%.2f` on a `double` is modelled as rounding an
  exact real half up to two decimals. IEEE rounding of the divisions and
  locale-dependent separators are not modelled.
- Decimal.ParseFormatFixed2: Python's `float()` is modelled only on
  `[+-]digits[.digits]` text. Exponents, underscores, `inf` and `nan` are
  refused.
- RoundTrip.SummaryParses: requires a nonzero runtime. With runtime 0 Java
  prints `Infinity` or `NaN` as the throughput. The model formats those words,
  but its `float()` refuses them where Python would read them.
- RoundTrip.SummaryParses: the writer and the reader are taken to see the same
  characters. Python reads the file as UTF-8 (src/analysis/analyze_results.py:77),
  but Java's `FileWriter` (src/core/MetricsRecorder.java:116) writes in the
  JVM's default charset. The round trip therefore holds only where that charset
  is UTF-8, as it is by default from JDK 18 on. Under a single-byte charset such
  as windows-1252, `µ` is written as the byte 0xB5 and reading fails.
- AnalyzeResults.ParsedMatchesPattern: `\d` is ASCII digits only. Python's
  regex also matches other Unicode decimal digits.
- Text.SplitJoinLines: Java's `%n` is taken to be `\n`. A `\r\n` separator
  would be removed by `strip()` in any case. Python's text-mode line iteration
  also ends a line at a lone `\r`, which SplitLines does not. No summary line
  contains a `\r`, so the summary round trip is unaffected.
- `Message.toString` (src/core/Message.java:47-50) is diagnostic text that
  nothing parses.
