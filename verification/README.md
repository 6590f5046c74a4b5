# NazoAuth evidence tooling, verified

NazoAuth's repository carries a large body of evidence tooling: the analyzer that turns a k6 point
stream into a measurement cohort, the capacity gate and rate search that read it, the reconciliation
of the audit journal, the publication of prepared load state, the merging of coverage reports, the
guards over Rust sources and the validator of release images. This project models that tooling in
Dafny and proves what its verdicts are worth. Every statement is for all inputs, all streams, all
histories or all reachable states.

| file | component | central results |
|---|---|---|
| Histogram | latency histograms | a histogram merged in any tree shape is the histogram of all samples; the reported bucket contains the exact nearest-rank quantile exactly when that quantile is not below the first bucket's reported end |
| StreamSeries, StreamSharding | stream analyzer, sequential and sharded | the sharded analysis equals the sequential one for every stream, worker count and assignment, up to one precisely stated counter |
| DropAccounting | classification of dropped iterations | conservation after every prefix, stable window, independence of arrival order, exactness of a cohort published as valid |
| StreamContents | what the analyzer's state says of the stream | every counter, maximum and histogram of every second is what the rows of that metric in that second add up to; the analyzer vouches for window and cohort under an exact condition on the rows |
| DeficitEpisodes, WalVolume, CommonWindow | the analyzer's reports | episodes are exactly the maximal runs; the two-pointer scan finds the true peak volume; the shared window is the largest guaranteed interval |
| Schedule | arrival schedule and cohort accounting | the closed formula counts exactly the arrivals in the measurement cohort, additively over every split |
| CapacityGate | verdict on one load run | every verdict is given exactly under a condition on the figures of the run; a pass bounds drops, latency and unsuccessful arrivals of the stream itself |
| CapacityBounds | rate search | the bracket, its halving, its confirmation, and the capacity it never loses |
| AuditJournal | audit reconciliation | a point passes exactly when every event of the stretch was delivered once |
| ReadyProtocol | prepared-state publication | the marker describes the files at every moment of every history |
| LcovMerge, LcovContents | merging of coverage reports | partial commutative monoid; a merged report states what its inputs state and counts what they count, and merging fails exactly on two checksums for one line |
| LcovFormat, LcovReading | reading of coverage reports | parsing a concatenation is merging; a text is rejected exactly when a line is out of place or misspelled or two checksums disagree, and the report read from it says what its lines say |
| LcovRoundTrip, LcovSummaries | writing of coverage reports | round trip on exactly the writable reports; records and entries are written in ascending order, with true totals |
| CfgGuard, RustPath, SourceBrackets | guards over Rust sources | the text evaluator is Kleene's logic and excludes all that a text alone allows to exclude; alias chasing finds the one resting place; bracket matching and splitting |
| OciLayout, OciValidation, OciClosure | release image validator | four distinct manifests in one-to-one correspondence; the store is what the root reaches |
| OciDocuments | the documents of a release, written out | a layout is accepted exactly when it holds the documents of some publication and nothing else; no descriptor misstates a size |
| Common, Counts, Sorting, Text | shared operators | |

Code that updates state in place is modelled by classes and loops that are proved against
specification functions; the properties are proved about those functions.

## Where the code differs from what it promises

In each case the model follows the code, a lemma exhibits an input, and a second lemma says exactly
when the promise holds.

- Sharded streams: a row that the router takes for a contract row but that no worker can decode is
  counted as a parse error once per worker (`BrokenBroadcastCountedTwice`, `ShardedAgreesIff`).
- Quantiles: the first bucket is reported as starting at 0 although it also counts negative samples,
  and under a schema closed above it excludes 0 itself (`NegativeSampleOutside`, `ZeroSampleOutside`,
  `SchemaQuantileContainsExact`).
- Coverage merging is not commutative when an empty checksum meets an absent one
  (`EmptyChecksumDoesNotCommute`, `MergeCommutesIff`); the parser never produces an empty one.
- Shared window: beside a sidecar whose container lived shorter than the scenario it is said to have
  run, the code still reports a window, and one that can outlast the container
  (`ShortContainerWidensWindow`, `MaximalIff`, `TruthfulIffNoneTooShort`, `EndsInLifetimeIff`).
- Minute buckets: entries after the window's end stay out of the regular buckets only if the measured
  span is a whole number of buckets (`LateEntryInRegularBucket`, `OverflowKeepsPostIff`).
- Cohort accounting: the figure called an upper bound on drops can be exceeded by drops that entries
  in excess hide (`MaskedDrop`); it is a bound exactly when the counts show that nothing is hidden
  (`UpperFigureCoversIff`). The comment on it says that beyond the allowance it is the plain deficit;
  the code takes the distance in every branch.
- Counter-based gate: the drop fraction is compared after rounding, so a run that misses more than
  0.1% of its schedule can pass (`PassAboveOnePerMille`), exactly up to 0.10005% (`CounterPassIff`).
- Rate search: with the ends of the bracket one apart and a lower end of at most 3 it repeats the
  lower rate, and a failure there reopens the bracket; from 4 on it stops (`AdjacentEndsReopen`,
  `MiddleInsideIff`, `AdjacentEndsRepeatIff`).
- Prepared state: a failing unlink is swallowed, after which a stale marker can outlive the files it
  describes (`SwallowedUnlinkBreaksCoherence`, `CoherentUnderWritesIff`).

The cfg guard keeps what it promises. Its limit is on the safe side: a predicate that asks for the same
thing twice can be false in every build and still be kept (`RepeatedAtomKept`), and from the text alone
nothing more could be excluded, because blanked string literals make different features read alike
(`GuardIsBestForText`).

## Model

| member | source | states |
|---|---|---|
| Histogram.BisectRightPosition | perf/tools/checkpoint_analyze.py:130-135 | the bucket of a sample lies above exactly the bounds that do not exceed it |
| Histogram.HistMergeAdd | perf/tools/checkpoint_analyze.py:130-149 | merging commutes with adding a sample to the right part |
| Histogram.HistFields | perf/tools/checkpoint_analyze.py:125-135 | count, sum, minimum and maximum of a histogram are those of the samples it was fed |
| Histogram.BucketsHoldAll | perf/tools/checkpoint_analyze.py:130-135 | the buckets, overflow included, hold every sample |
| Histogram.HistOfConcat | perf/tools/checkpoint_analyze.py:125-149 | the merge of two parts is the histogram of the concatenated samples, in every field |
| Histogram.MergedHistIsHistOf | perf/tools/checkpoint_analyze.py:138-149 | merging in any tree shape equals feeding all samples to one histogram |
| Histogram.QuantileInterval | perf/tools/checkpoint_analyze.py:173-196 | under either schema the loop stops at the first bucket whose cumulative count reaches the rank, and reports that bucket's interval with its closed side |
| Histogram.CumulativeCount | perf/tools/checkpoint_analyze.py:130-135 | the buckets up to a bound hold exactly the samples below it |
| Histogram.RankAgainstBound | perf/tools/checkpoint_analyze.py:224-230 | the nearest-rank sample is below a bound exactly when enough samples are |
| Histogram.QuantileMeaning | perf/tools/checkpoint_analyze.py:224-230 | the nearest-rank quantile is a sample that at least q*n samples do not exceed and that fewer than q*n lie below |
| Histogram.SchemaQuantileContainsExact | perf/tools/checkpoint_analyze.py:173-230 | for every histogram that counts as its schema says, closed below or above, the reported bucket contains the exact quantile if and only if it is not negative, respectively positive |
| Histogram.MergedQuantileContainsExact | perf/tools/checkpoint_analyze.py:173-230 | for every merge tree and every 0 < q <= 1, the reported bucket contains the exact quantile if and only if it is not negative |
| Histogram.LatencyQuantileContainsExact | perf/tools/checkpoint_analyze.py:173-230 | on the analyzer's own bucket layout the bucket contains the exact quantile of non-negative samples |
| Histogram.NegativeSampleOutside | perf/tools/checkpoint_analyze.py:173-196 | the bucket reported for the histogram of one negative sample does not contain it |
| Histogram.ZeroSampleOutside | perf/tools/checkpoint_analyze.py:173-196 | under any schema closed above, the bucket reported for a single zero does not contain it |
| StreamSeries.OnPointKeepsValid | perf/tools/checkpoint_analyze.py:442-526 | every point keeps the bucket layout and the non-negative gauge maxima of all bins |
| StreamSeries.KindByName | perf/tools/checkpoint_analyze.py:476-526 | each of the listed metric names, and no other name, leads to its own branch; a contract field is the rest of its name |
| StreamSeries.StreamingSeries.constructor | perf/tools/checkpoint_analyze.py:314-347 | a new analyzer has seen nothing and has no window |
| StreamSeries.StreamingSeries.ClassifyDropResolved | perf/tools/checkpoint_analyze.py:368-375 | a drop is added to the one zone of [start, end) that its time lies in |
| StreamSeries.StreamingSeries.ClassifyDrop | perf/tools/checkpoint_analyze.py:377-385 | without a window a drop waits, and beyond the buffer's size only marks the overflow |
| StreamSeries.StreamingSeries.MaybeResolveWindow | perf/tools/checkpoint_analyze.py:349-366 | one start and one end value fix the window and classify all waiting drops; two values of either mark divergence; a fixed window never changes |
| StreamSeries.StreamingSeries.AcceptPoint | perf/tools/checkpoint_analyze.py:442-526 | one point takes the whole state to `OnPoint` of it, an incomplete one counting only as a parse error; what that makes of a stream is stated by `BinsAreStream`, `SeenIsStream`, `CohortIsStream` and `DropConservation` |
| StreamSeries.StreamingSeries.AcceptKind | perf/tools/checkpoint_analyze.py:476-526 | a complete point updates bins, cohort, contract and drops as its metric's kind calls for, and nothing else |
| StreamSharding.Consume | perf/tools/checkpoint_analyze.py:872-890 | the sequential loop ends in the state `Run` of the stream |
| StreamSharding.StreamShard | perf/tools/checkpoint_analyze.py:726-771 | a worker ends in its report: its own rows and all broadcast rows, with the points and errors of broadcasts it does not own taken off again |
| StreamSharding.ReportIsPart | perf/tools/checkpoint_analyze.py:726-771 | a worker's corrected report is the analysis of just the rows that are its own |
| StreamSharding.MergeBinsTally | perf/tools/checkpoint_analyze.py:774-808 | merging bins commutes with tallying a point on either side |
| StreamSharding.MergeContractStep | perf/tools/checkpoint_analyze.py:774-808 | two parts that share the contract still do after a contract point, and the drops waiting in one of them are classified once |
| StreamSharding.JoinRow | perf/tools/checkpoint_analyze.py:774-808 | one more row on both of two neighbouring groups of workers is one more row on their merge |
| StreamSharding.MergeReportsIsPart | perf/tools/checkpoint_analyze.py:774-808 | merging the first n reports, which never fails, gives what those n workers saw together |
| StreamSharding.AllPartsIsRun | perf/tools/checkpoint_analyze.py:811-869 | all workers together saw the sequential stream, plus the repeated errors |
| StreamSharding.RunIsResolved | perf/tools/checkpoint_analyze.py:349-366 | the final attempt to resolve the window changes nothing |
| StreamSharding.MergeShard | perf/tools/checkpoint_analyze.py:774-808 | the in-place merge fails exactly on two different windows and otherwise leaves the merged state |
| StreamSharding.ConsumeSharded | perf/tools/checkpoint_analyze.py:811-869 | the sharded loop always succeeds and ends in the sequential state with the repeated errors added |
| StreamSharding.ShardedEqualsSequential | perf/tools/checkpoint_analyze.py:726-869 | for every stream, worker count and assignment the sharded analysis is the sequential one, except for (workers - 1) parse errors per undecodable broadcast row |
| StreamSharding.ShardedAgreesIff | perf/tools/checkpoint_analyze.py:811-869 | full agreement holds exactly with one worker or without such rows |
| StreamSharding.BrokenBroadcastCountedTwice | perf/tools/checkpoint_analyze.py:741-771 | two workers report two parse errors for one broken contract row |
| DropAccounting.RunAccounted | perf/tools/checkpoint_analyze.py:349-385 | in every reachable state the buffer holds the first drops while the window is open, and each counter is the sum of its zone once it is known |
| DropAccounting.BinsConserveDrops | perf/tools/checkpoint_analyze.py:481-526 | the per-second bins together hold every iteration that a row of the metric "dropped_iterations" reports as dropped |
| DropAccounting.DropConservation | perf/tools/checkpoint_analyze.py:349-385 | without overflow, classified plus waiting drops are all iterations that the rows of "dropped_iterations" report, after every prefix, and so are the bins |
| DropAccounting.WindowStable | perf/tools/checkpoint_analyze.py:349-366 | once resolved the window keeps its bounds and nothing waits, whatever follows |
| DropAccounting.FieldsAreAnnouncements | perf/tools/checkpoint_analyze.py:476-480 | a contract field holds exactly the values announced for it, in any order |
| DropAccounting.AgreedWindow | perf/tools/checkpoint_analyze.py:349-366 | one announced start and end make exactly that window |
| DropAccounting.ArrivalOrderIrrelevant | perf/tools/checkpoint_analyze.py:349-385 | any reordering of a stream with an agreed window has the same window and the same three counters |
| DropAccounting.OutcomesAddUp | perf/tools/checkpoint_analyze.py:481-507 | outcomes always add up to the ended iterations |
| DropAccounting.CohortIsStream | perf/tools/checkpoint_analyze.py:481-501 | the cohort's begins, ends and outcomes are, outcome by outcome, what the measure-tagged rows of the stream add up to |
| DropAccounting.ValidCohortIsExact | perf/tools/checkpoint_analyze.py:547-625 | a cohort published as valid has the announced window; its begun and ended iterations, outcome by outcome, are those of the stream's rows and equal in number; its three drop counts are those of the rows before, inside and after the window, and together all drops of the stream |
| StreamContents.BinsAreStream | perf/tools/checkpoint_analyze.py:388-526 | in every reachable state exactly the seconds with a complete row that is no contract point have a bin; each gauge, iteration counter per tag and histogram of a bin is the sum, maximum, number or histogram of the rows of that metric name in that second |
| StreamContents.SeenIsStream | perf/tools/checkpoint_analyze.py:442-475 | points and parse errors counted, first and last time and the users seen are those of the rows |
| StreamContents.WindowValidIff | perf/tools/checkpoint_analyze.py:547-575 | window.json is valid exactly when the rows announce every bounds field, no field twice differently, a start before the end and a sound clock, and no row is broken |
| StreamContents.OverflowIff | perf/tools/checkpoint_analyze.py:377-385 | the buffer overflowed exactly when some prefix with an open window held more than 100000 drops |
| StreamContents.PublishedAsValidIff | perf/tools/checkpoint_analyze.py:547-625 | window and cohort are both published as valid exactly when the rows agree on such a contract, as many measured iterations ended as began, and the buffer never overflowed |
| DeficitEpisodes.FindRecovery | perf/tools/checkpoint_analyze.py:1011-1028 | the earliest five adjacent covered seconds that reach the given fraction of the target, or none |
| DeficitEpisodes.Minimum | perf/tools/checkpoint_analyze.py:1007-1010 | the lowest count of a run, attained inside it |
| DeficitEpisodes.HoleIsShortfall | perf/tools/checkpoint_analyze.py:1009-1009 | where no second exceeds the target, the missing operations are the target over the run less what was completed; they are never less |
| DeficitEpisodes.FindEpisodes | perf/tools/checkpoint_analyze.py:983-1043 | the episodes are the maximal runs of adjacent covered seconds below the given fraction of the target, from left to right, each with its true extent, minimum, the seconds of that minimum, missing operations and recovery |
| DeficitEpisodes.RunsAreAllMaximalRuns | perf/tools/checkpoint_analyze.py:983-1043 | a stretch is listed exactly when it is a maximal run, so the answer is determined by the series |
| WalVolume.WalDeltas | perf/tools/checkpoint_analyze.py:1190-1233 | the loop yields the deltas and breaks that `DeltasComplete` and `BreaksCounted` characterise row by row |
| WalVolume.DeltaOrigin | perf/tools/checkpoint_analyze.py:1190-1233 | every delta stems from two neighbouring rows with equal reset stamps, byte counters that are there and did not fall, and at most five seconds between them; each column holds the growth of its counter, or nothing where one is missing or fell |
| WalVolume.DeltasComplete | perf/tools/checkpoint_analyze.py:1190-1233 | conversely every such pair of neighbours gives one delta, in order |
| WalVolume.BreaksCounted | perf/tools/checkpoint_analyze.py:1190-1233 | breaks count exactly the counter rows whose successor does not continue them |
| WalVolume.DeltasNonNegative | perf/tools/checkpoint_analyze.py:1190-1233 | no known volume is negative, and byte volumes are always known |
| WalVolume.DeltasOrdered | perf/tools/checkpoint_analyze.py:1190-1233 | chronological rows give deltas in strictly increasing order of their ends |
| WalVolume.UnbrokenBytes | perf/tools/checkpoint_analyze.py:1190-1233 | without a break the byte deltas add up to the growth of the counter |
| WalVolume.DropExpired | perf/tools/checkpoint_analyze.py:1457-1461 | the left end passes exactly the deltas that ended by the limit, and the running volume follows |
| WalVolume.RollingTimeVolume | perf/tools/checkpoint_analyze.py:1443-1464 | a positive width never runs off the list; on ordered deltas the scan fails exactly for a width that is not positive on a non-empty list, and otherwise returns the largest volume of any window that ends with a delta |
| WalVolume.PeakBoundsStretch | perf/tools/checkpoint_analyze.py:1443-1464 | no stretch of that width anywhere in time holds more than the peak |
| WalVolume.ClipDeltas | perf/tools/checkpoint_analyze.py:1436-1440 | the loop keeps exactly the deltas whose midpoint lies in the interval, in order |
| WalVolume.ClippedMembers | perf/tools/checkpoint_analyze.py:1436-1440 | a delta is kept exactly when the middle of its span lies in the half-open interval |
| WalVolume.ClippingKeeps | perf/tools/checkpoint_analyze.py:1436-1440 | clipping keeps the order, the columns and the sign of the volumes |
| WalVolume.PeakIsExact | perf/tools/checkpoint_analyze.py:1436-1464 | on the deltas of chronological rows, clipped to the effective interval or not, the peak is attained by a stretch of that width and bounds every stretch |
| WalVolume.PeakVolume | perf/tools/checkpoint_analyze.py:1838-1866 | from observer rows over clipping to the scan, the reported volume is the true peak |
| CommonWindow.LoadWindows | perf/tools/checkpoint_analyze.py:1074-1125 | the evidence leaves possible exactly the windows that the raw record is true of; zero and absent time stamps count as missing |
| CommonWindow.SidecarEvidenceIsTruth | perf/tools/checkpoint_analyze.py:1086-1124 | a sidecar's evidence admits a window exactly when its trusted contract gives it, or else some scenario start inside its container's lifetime explains it |
| CommonWindow.EvidenceIsTruth | perf/tools/checkpoint_analyze.py:1074-1125 | the same for all loads of a run together |
| CommonWindow.Intersect | perf/tools/checkpoint_analyze.py:1135-1145 | the latest conservative start and the earliest conservative end |
| CommonWindow.CommonWindow | perf/tools/checkpoint_analyze.py:1128-1152 | the report is unusable exactly when a load has no evidence; otherwise it is sound, and the largest guaranteed interval exactly when every container could hold its scenario |
| CommonWindow.SoundAndMaximal | perf/tools/checkpoint_analyze.py:1047-1152 | a reported interval is not empty and inside every load's real window in every world the evidence allows; no other such interval reaches outside it when every container could hold its scenario |
| CommonWindow.MaximalIff | perf/tools/checkpoint_analyze.py:1128-1152 | the report is the largest guaranteed interval exactly when no container was shorter than its scenario |
| CommonWindow.SomeWorldIff | perf/tools/checkpoint_analyze.py:1047-1073 | some real windows explain the evidence exactly when every container could hold its scenario |
| CommonWindow.TruthfulIffNoneTooShort | perf/tools/checkpoint_analyze.py:1047-1125 | a record is true of some windows exactly when no sidecar judged by its lifetime has a container shorter than its scenario |
| CommonWindow.EndsInLifetimeIff | perf/tools/checkpoint_analyze.py:1107-1117 | a lifetime-judged sidecar lets the shared window end no later than its container exactly when that container could hold the scenario |
| CommonWindow.ExactIsIntersection | perf/tools/checkpoint_analyze.py:1136-1139 | with contracts everywhere an interval lies in all windows exactly when it lies in the report |
| CommonWindow.ShortContainerWidensWindow | perf/tools/checkpoint_analyze.py:1106-1117 | a record of a main load and a sidecar that lived ten seconds around a hundred-second scenario: 95 seconds are reported, ninety after the container ended, and no windows fit the record |
| CommonWindow.ReportRun | perf/tools/checkpoint_analyze.py:1047-1152 | end to end, the report is usable exactly when every load vouches for a window or its lifetime is known, and exact exactly when all vouch; the interval lies inside the main window and inside every real window of a true record; it is the largest such interval exactly when no container was too short, and is reported although no windows fit exactly when one was |
| Schedule.ArrivalsCounted | perf/tools/measure_schedule.py:45-89 | a count is given exactly when all inputs are numbers, rate, unit and limit positive and the window inside the scenario and not empty; it is the number of arrivals whose entry lies in the half-open window and before the scenario ends |
| Schedule.SplitAt | perf/tools/measure_schedule.py:45-89 | cutting a window in two loses and repeats no arrival, also where the scenario ends inside |
| Schedule.SplitAnywhere | perf/tools/measure_schedule.py:45-89 | the same for any number of cuts |
| Schedule.CountIsMeasureCohort | perf/k6/measurement_clock.js:94-110 | the arrivals counted are exactly those that the load generator's clock puts in the measurement cohort |
| Schedule.MeasuredEntryHasRegularBucket | perf/k6/measurement_clock.js:112-129 | every entry of the cohort has a regular bucket, the one whose span holds it |
| Schedule.EarlyEntryHasNoBucket | perf/k6/measurement_clock.js:112-129 | an entry before the window has no bucket |
| Schedule.EndlessMeasurement | perf/k6/measurement_clock.js:94-129 | without a finite duration everything after the start is measured, in one bucket and an overflow |
| Schedule.OverflowKeepsPostIff | perf/k6/measurement_clock.js:112-129 | entries after the window's end all fall into the extra bucket exactly when the measured span is a positive whole number of buckets |
| Schedule.LateEntryInRegularBucket | perf/k6/measurement_clock.js:112-129 | ninety seconds in minute buckets put a completion after the end into the second regular bucket |
| Schedule.ScheduleDelta | perf/tools/measure_schedule.py:154-205 | lower figure is the deficit, upper figure the distance between entries and schedule in every branch; entries plus deficit are schedule plus overshoot |
| Schedule.PreDrops | perf/tools/measure_schedule.py:212-223 | the estimate exists exactly when the window starts inside the scenario and ends with it; with the window's own deficit it makes the deficit of the whole scenario |
| Schedule.CohortAccounting | perf/tools/measure_schedule.py:123-254 | no problem is reported exactly when all counters are present and agree, the schedule is exact and not empty, and at most the allowance entered beyond it; the upper figure bounds all drops that the allowance could hide exactly when nothing is hidden |
| Schedule.UpperFigureCoversIff | perf/tools/measure_schedule.py:187-205 | the upper figure bounds every number of drops consistent with the counts and a given excess exactly under a condition on the counts alone; the lower figure never exceeds the real drops |
| Schedule.MaskedDrop | perf/tools/measure_schedule.py:187-205 | a window whose books balance and whose upper figure is zero although an arrival may have been dropped |
| CapacityGate.ContractValidity | perf/tools/capacity_search.py:56-79 | no problem is listed exactly for a complete, undivided contract with a non-empty window |
| CapacityGate.ReadStreamEvidence | perf/tools/capacity_search.py:97-173 | evidence is valid exactly when all artifacts are readable, the analyzer called window and cohort valid, and it neither failed nor fell behind |
| CapacityGate.CountersAgree | perf/tools/capacity_search.py:392-407 | agreement means no unknown outcome and equal counts for every known one |
| CapacityGate.EvaluateStream | perf/tools/capacity_search.py:312-423 | the gate reads the cohort exactly when it is closed, on target and confirmed by the counters; late virtual users have their own verdict; a division by zero is an error, not a verdict |
| CapacityGate.EvaluateCounters | perf/tools/capacity_search.py:424-477 | without stream artifacts the gate reads the counters exactly when the books of the window balance |
| CapacityGate.Decide | perf/tools/capacity_search.py:543-616 | a pass needs every criterion; generator evidence never turns an acceptable run away |
| CapacityGate.Evaluate | perf/tools/capacity_search.py:239-616 | each verdict is given exactly when the figures of the run call for it, written out for the stream, the counter and the whole-scenario path: pass, fail, generator fault, late virtual users, division by zero; everything else is invalid |
| CapacityGate.ReadGate | perf/tools/capacity_search.py:239-477 | the gate is given its population exactly when the evidence admits it, and late virtual users and divisions by zero are told apart |
| CapacityGate.StreamAdmitsIff | perf/tools/capacity_search.py:312-407 | the stream path is open exactly when contract, artifacts, window, books, rate and the seven counters agree, field by field |
| CapacityGate.CountersAdmitIff | perf/tools/capacity_search.py:424-454 | the counter path is open exactly when entries, operations and the seven outcomes are one number, at most the allowance beyond a schedule that is not empty |
| CapacityGate.DecideTable | perf/tools/capacity_search.py:543-616 | on every path the verdict is a pass exactly when drops, errors, rate and latency are within their limits, and the generator is blamed exactly for drops it can explain |
| CapacityGate.CountersAddUp | perf/tools/capacity_search.py:392-407 | counters that agree name by name add up to the stream's outcomes |
| CapacityGate.PassCertifies | perf/tools/capacity_search.py:312-616 | a pass on stream evidence certifies its cohort: drops within 0.1% of the observed schedule, schedule within 0.5% of target, successes at least 99.5% of the offered load |
| CapacityGate.PassMeans | perf/tools/capacity_search.py:239-616 | a pass on the cohort published for a stream is a statement about its rows: over the contract's window everything begun ended, drops are within 0.1% of the schedule, successes at least 99.5% and losses at most 1% of the offered load, no preparation failed, every named counter is what the rows say of its outcome, at most 0.1% ran on late users, and the 100 and 250 ms limits, or for a cold login the load tool's thresholds, were kept |
| CapacityGate.WholePassIff | perf/tools/capacity_search.py:478-616 | a run without measurement window passes exactly when thresholds held, drops are within 0.1% of all iterations, 99.5% of the registered load completed over a positive time, no error was classified and both latency limits were kept |
| CapacityGate.CounterPassMeans | perf/tools/capacity_search.py:424-616 | behind a pass on counters every entry was counted once and ended once, over a positive window, within the limits of latency, errors and rate |
| CapacityGate.RoundsHalfEven | perf/tools/measure_schedule.py:206-211 | rounding gives the nearest millionth, and the even one of two equally near |
| CapacityGate.CounterDropsIff | perf/tools/measure_schedule.py:206-211 | the rounded drop criterion is met exactly when entries and schedule are at most 0.10005% apart |
| CapacityGate.CounterPassIff | perf/tools/capacity_search.py:424-616 | a run judged by its counters passes exactly when its window is positive, successes reach 99.5% of the registered load, nothing ended unexpectedly or unprepared, the latency limits of its kind were kept and the distance is at most 0.10005%; it passes above 0.1% exactly in that band |
| CapacityGate.PassAboveOnePerMille | perf/tools/capacity_search.py:424-616 | a concrete run that passes with 2000 of 1999001 arrivals missing |
| CapacityGate.NoFallback | perf/tools/capacity_search.py:291-311 | where stream evidence is required or complete, the counters of the other paths, the whole-run figures and the time unit cannot influence what the gate reads |
| AuditJournal.TallyEvents | perf/tools/point_runner.py:203-214 | the event loop is the fold `AddAll` of its events |
| AuditJournal.TallyConserves | perf/tools/point_runner.py:203-242 | every event is unnumbered, a repetition or the first of its number; counts per type add up to the numbers seen in range |
| AuditJournal.DuplicatesIff | perf/tools/point_runner.py:208-211 | repetitions are reported exactly when some number occurs twice |
| AuditJournal.TypeCountsExact | perf/tools/point_runner.py:212-214 | without repetitions the counts per type are exact |
| AuditJournal.SecondCountsExact | perf/tools/point_runner.py:215-224 | and so are the tokens counted per second |
| AuditJournal.JournalScan | perf/tools/point_runner.py:160-242 | the scan fails exactly on a line it cannot take apart, and otherwise reports the fold over all lines |
| AuditJournal.ScanTallies | perf/tools/point_runner.py:177-214 | the scan tallies exactly the events of the deployment's own batches |
| AuditJournal.CleanIffWellKept | perf/tools/point_runner.py:177-202 | no malformed line, foreign batch or gap is reported exactly when every batch is this deployment's, as long as it says, and continues the previous one |
| AuditJournal.ScanCounts | perf/tools/point_runner.py:177-202 | foreign batches, spoiled lines and gaps are counted exactly |
| AuditJournal.CleanReportIff | perf/tools/point_runner.py:160-242 | a clean contiguous report means a well-kept journal that holds every number of the range once; its counts per type and per second and its number of batches are exact |
| AuditJournal.CheckEnds | perf/tools/point_runner.py:320-340 | all state checks pass exactly when database head, anchor and receiver are at one point of this deployment's chain |
| AuditJournal.CheckProgress | perf/tools/point_runner.py:342-365 | progress is valid exactly when the receiver moved on, or stood still where allowed, and accepted as many events |
| AuditJournal.CheckJournal | perf/tools/point_runner.py:372-412 | the journal confirms the progress exactly when it was read, is clean, covers the progress and holds the expected tokens |
| AuditJournal.Reconcile | perf/tools/point_runner.py:287-416 | no check fails exactly when both ends agree, progress is valid and the journal confirms it; without collected state only that is reported |
| AuditJournal.AuditPoint | perf/tools/point_runner.py:287-416 | the audit of a point passes exactly when every event between the two checkpoints was delivered once, none is foreign or repeated, and the expected tokens were issued; the counts per type then add up to the stretch |
| ReadyProtocol.StateDir.ClearReady | perf/tools/perf_state_ready.py:41-45 | the marker is gone unless the unlink failed; nothing else changes |
| ReadyProtocol.StateDir.WriteReady | perf/tools/perf_state_ready.py:48-65 | two parseable files are hashed and published in one step, otherwise nothing is published |
| ReadyProtocol.AlwaysCoherent | perf/tools/perf_state_ready.py:41-65 | at every moment of every history with working unlinks a present marker describes the files, and none is present while a run writes |
| ReadyProtocol.CoherentUnderWritesIff | perf/tools/perf_state_ready.py:41-45 | after a run has begun, every next step keeps coherence exactly when the marker is gone |
| ReadyProtocol.SwallowedUnlinkBreaksCoherence | perf/tools/perf_state_ready.py:41-45 | a history in which a failed unlink leaves a marker over other files |
| ReadyProtocol.MarkerOrigin | perf/runner.py:1155-1173 | every marker seen was there from the start or was published by the run that had begun last, under its name, over the files of that moment, which parse |
| ReadyProtocol.WaitReady | perf/tools/perf_state_ready.py:85-116 | the first wanted marker decides: verified or mismatch; a timeout means no poll saw one, and tells whether others were seen |
| ReadyProtocol.Verify | perf/tools/perf_state_ready.py:68-82 | accepted exactly when both files are there and match the marker |
| ReadyProtocol.ReadyMeans | perf/tools/perf_state_ready.py:85-116 | a returned marker belongs to the wanted run, and both files had at their reads the bytes hashed when it was published, under every interleaving |
| ReadyProtocol.MismatchMeans | perf/tools/perf_state_ready.py:68-82 | a mismatch means that another seeding run began between reading the marker and reading the files |
| LcovMerge.MergeCommutesIff | scripts/merge_lcov.py:23-41 | two records merge alike in both orders, failure included, exactly when they conflict or no line pairs an empty checksum with an absent one |
| LcovMerge.EmptyChecksumDoesNotCommute | scripts/merge_lcov.py:27-35 | two records whose merge depends on the order |
| LcovMerge.MergeCommutative | scripts/merge_lcov.py:23-41 | records as the parser makes them merge alike in both orders |
| LcovMerge.MergeAssociative | scripts/merge_lcov.py:23-41 | grouping does not matter, and one grouping fails exactly when the other does |
| LcovMerge.PlusCommutative | scripts/merge_lcov.py:173-183 | whole reports merge alike in both orders, failure included |
| LcovMerge.PlusAssociative | scripts/merge_lcov.py:173-183 | and in both groupings |
| LcovMerge.NormalizedAnyOrder | scripts/merge_lcov.py:173-183 | the records of a report may be visited in any order, even where normalization makes sources collide |
| LcovMerge.MergedPermuted | scripts/merge_lcov.py:173-183 | the order of the input files is irrelevant |
| LcovContents.MergedSays | scripts/merge_lcov.py:23-41 | a merged report states of a source exactly what its inputs state under normalized names: presence, definitions, calls, lines, checksums, branches and which were evaluated |
| LcovContents.MergeFailsIff | scripts/merge_lcov.py:27-35 | merging any number of reports fails exactly when two different checksums are stated for one line of one normalized source |
| LcovContents.CountsConserved | scripts/merge_lcov.py:23-41 | every line, function and branch count of a merged report is the sum of the counts of its inputs |
| LcovMerge.MergedCoverage | scripts/merge_lcov.py:173-193 | for any number of inputs and any normalization of names, the totals are the numbers of different lines hit, and instrumented, in any input |
| LcovMerge.SizesCountPairs | scripts/merge_lcov.py:186-193 | a total over sources counts each pair of source and line once |
| LcovMerge.SourceRecord.MergeFrom | scripts/merge_lcov.py:23-41 | the in-place merge fails exactly on a checksum conflict and otherwise leaves the merged record |
| LcovMerge.AddLines | scripts/merge_lcov.py:27-35 | the line loop stops at a conflict if there is one and otherwise merges all lines |
| LcovMerge.MergeReports | scripts/merge_lcov.py:173-183 | the loop over all reports yields their merge under normalized names, or fails exactly when that does |
| LcovFormat.ParseClean | scripts/merge_lcov.py:54-130 | parsed checksums are absent or not empty |
| LcovFormat.FoldLift | scripts/merge_lcov.py:54-130 | parsing after earlier records is parsing alone, merged into them |
| LcovFormat.ParseConcat | scripts/merge_lcov.py:54-130 | parsing a complete report followed by any text is merging their parses, failure included |
| LcovFormat.ParseLcov | scripts/merge_lcov.py:54-130 | the line loop with early errors computes `Parse` |
| LcovReading.ReadIff | scripts/merge_lcov.py:54-126 | a stripped line is read as an entry exactly when it is a spelling of it; each kind of entry has its own spelling and everything else is malformed |
| LcovReading.ParseIsMerge | scripts/merge_lcov.py:54-130 | a text is read as the merge of its lines where each is in its place, and not at all otherwise |
| LcovReading.ParseFailsIff | scripts/merge_lcov.py:54-130 | a text is rejected exactly when a line is malformed or out of place, a record is left open, or two lines of one source give one line different checksums |
| LcovReading.ParseSays | scripts/merge_lcov.py:54-130 | the report read from a text states of a source exactly what the lines of its records state |
| LcovReading.ParseCounts | scripts/merge_lcov.py:54-130 | and its counts are the sums over those lines |
| LcovRoundTrip.ReadLineHitsLine | scripts/merge_lcov.py:97-111 | a rendered line entry, with or without checksum, reads back as itself |
| LcovRoundTrip.ReadBranchHitsLine | scripts/merge_lcov.py:112-124 | a rendered branch entry, taken count or dash, reads back as itself |
| LcovRoundTrip.FeedRecord | scripts/merge_lcov.py:133-158 | reading a rendered record adds exactly that record |
| LcovRoundTrip.RoundTrip | scripts/merge_lcov.py:54-158 | parsing a rendered writable report gives it back |
| LcovRoundTrip.ParseWritable | scripts/merge_lcov.py:54-130 | everything the parser accepts is writable |
| LcovRoundTrip.RoundTripIff | scripts/merge_lcov.py:54-158 | the round trip succeeds for exactly the writable reports |
| LcovRoundTrip.RenderAfterParse | scripts/merge_lcov.py:54-158 | whatever parses survives rendering and parsing again |
| LcovRoundTrip.RenderLcov | scripts/merge_lcov.py:133-158 | the output loop computes `Render`; what the text says is stated by `RoundTripIff` and `WrittenTextSays` |
| LcovSummaries.WrittenTextSays | scripts/merge_lcov.py:133-158 | read by a second reader, the text of every report without line breaks in its names has one record per source in ascending order, each with its entries in ascending order, and the numbers after FNF, FNH, LF, LH, BRF and BRH are the numbers of definitions, hit definitions, lines, hit lines, branches and taken branches |
| CfgGuard.SplitArguments | scripts/verify_static_contracts.py:89-98 | the depth-counting loop yields the non-blank pieces between commas of depth zero |
| CfgGuard.ArgumentsOfPrint | scripts/verify_static_contracts.py:86-98 | on the text of any argument list, however spaced and with or without trailing comma, splitting gives back the arguments |
| CfgGuard.EvaluateIsKleene | scripts/verify_static_contracts.py:80-105 | evaluating the text of any cfg tree gives the Kleene value of the tree |
| CfgGuard.KleeneSound | scripts/verify_static_contracts.py:80-105 | a definite value holds under every assignment of what the atoms ask for, also where atoms with equal text ask for different things |
| CfgGuard.ExclusionIsSound | scripts/verify_static_contracts.py:80-105 | code is excluded only if its predicate is false in every build without `test` |
| CfgGuard.GuardExactWhenReadOnce | scripts/verify_static_contracts.py:80-105 | where nothing is asked for twice, code is excluded exactly when its predicate is false in every such build |
| CfgGuard.GuardIsBestForText | scripts/verify_static_contracts.py:80-105 | a text is excluded exactly when no predicate that reads like it holds in any build without `test` |
| CfgGuard.RepeatedAtomKept | scripts/verify_static_contracts.py:80-105 | a contradictory predicate that repeats an atom is kept |
| CfgGuard.WrittenOut | scripts/verify_static_contracts.py:80-105 | five predicates as text, and what becomes of the code they guard |
| RustPath.CircleNeverRests | scripts/verify_static_contracts.py:265-277 | a returning first segment means the path never comes to rest |
| RustPath.LeadsToOne | scripts/verify_static_contracts.py:265-277 | aliases lead a path to at most one place |
| RustPath.SuffixStays | scripts/verify_static_contracts.py:265-277 | only the first segment is ever replaced, independently of what follows it, and what follows stays at the end |
| RustPath.StageAfter | scripts/verify_static_contracts.py:265-277 | each stage is the one before it with its first segment looked up |
| RustPath.Resolve | scripts/verify_static_contracts.py:265-277 | the loop ends within as many steps as there are aliases, at the place the aliases lead to whenever they lead anywhere, and otherwise on the circle |
| SourceBrackets.Matching | scripts/data_model_inventory.py:21-33 | the stack loop computes `MatchAt` |
| SourceBrackets.MatchIff | scripts/data_model_inventory.py:21-33 | the matcher returns r exactly when the text from the bracket to r is one balanced group of the three kinds |
| SourceBrackets.SplitTop | scripts/data_model_inventory.py:36-51 | the cursor loop computes the trimmed pieces |
| SourceBrackets.TrimPiecesEach | scripts/data_model_inventory.py:50-51 | in order, a blank piece leaves nothing and any other its stripped text |
| SourceBrackets.PiecesRejoin | scripts/data_model_inventory.py:36-51 | the untrimmed pieces rejoin to the source |
| SourceBrackets.PiecesAreTopLevel | scripts/data_model_inventory.py:36-51 | no piece keeps a separator outside brackets and angles, and every cut is at such a place |
| SourceBrackets.SplitDefinedIff | scripts/data_model_inventory.py:36-51 | splitting fails exactly when the text is not a sequence of single characters and balanced groups |
| OciValidation.Layout.Descriptor | scripts/validate_release_oci.py:199-232 | a descriptor is accepted exactly when it is `DescriptorOk`, and its blob is then recorded; `DescriptorOut` and `DescriptorIn` write out what that is |
| OciValidation.Layout.Layers | scripts/validate_release_oci.py:324-391 | all layers are as the manifest's kind demands, each predicate type once and none missing, and exactly their blobs are recorded |
| OciValidation.Layout.ImageManifest | scripts/validate_release_oci.py:273-391 | accepted exactly when the image manifest, its config and its layers are in order; exactly what it holds is recorded |
| OciValidation.Layout.AttestationManifest | scripts/validate_release_oci.py:273-391 | the same for an attestation, whose subject and statements must name the image |
| OciValidation.Layout.ReadEntries | scripts/validate_release_oci.py:421-459 | accepted exactly when every entry is an image or an attestation and no two claim the same platform, image or attestation |
| OciValidation.Layout.Manifests | scripts/validate_release_oci.py:467-483 | accepted exactly when every entry's manifest is in order |
| OciValidation.Layout.Close | scripts/validate_release_oci.py:241-247 | accepted exactly when no blob is left unnamed |
| OciValidation.Layout.Validate | scripts/validate_release_oci.py:394-491 | the layout is accepted exactly when it is `Acceptable` and the repository name is neither empty nor too long, and the images listed are those of its entries; `AcceptedIff` writes out the accepted layouts |
| OciValidation.SetsMatchIff | scripts/validate_release_oci.py:461-465 | the two set comparisons mean: both platforms present, every reference names an image, every image is referred to |
| OciClosure.NeverBothManifests | scripts/validate_release_oci.py:282-293 | no blob is both an image manifest and an attestation manifest |
| OciClosure.FourDistinctManifests | scripts/validate_release_oci.py:394-491 | the four manifests of an accepted release are four different blobs |
| OciClosure.ImagesMatchAttestations | scripts/validate_release_oci.py:394-491 | images and attestations correspond one to one, and the subject inside each attestation's manifest is its image |
| OciClosure.ImagesRunOnTheirPlatform | scripts/validate_release_oci.py:314-323 | the image listed for a platform is configured for that system and architecture |
| OciClosure.AttestationsSpeakOfTheirImage | scripts/validate_release_oci.py:324-391 | an attestation consists of exactly two statements of different configured types, and every subject of both is the referenced image |
| OciClosure.ReleaseClosed | scripts/validate_release_oci.py:394-491 | following descriptors never leaves the accepted release |
| OciClosure.StoreIsReachable | scripts/validate_release_oci.py:394-491 | a blob is in an accepted store exactly when the root index reaches it |
| OciDocuments.DescriptorOut | scripts/validate_release_oci.py:199-232 | an accepted descriptor is media type, lower-case sha256 digest and true size of a stored blob, with bounded extras |
| OciDocuments.DescriptorIn | scripts/validate_release_oci.py:199-232 | and every such descriptor is accepted |
| OciDocuments.ImageOut | scripts/validate_release_oci.py:273-343 | an accepted image manifest is, key by key, the one of a stored configuration for its platform and of stored layers |
| OciDocuments.ImageIn | scripts/validate_release_oci.py:273-343 | and every such manifest is accepted, naming just those blobs |
| OciDocuments.AttestationOut | scripts/validate_release_oci.py:273-391 | an accepted attestation manifest is, key by key, the one of the empty configuration, the image and one statement of each type about it |
| OciDocuments.AttestationIn | scripts/validate_release_oci.py:273-391 | and every such manifest is accepted, naming just those blobs |
| OciDocuments.AcceptedIff | scripts/validate_release_oci.py:394-491 | a layout is accepted exactly when its documents are those of some publication, written out key by key, and it holds no other blob |
| OciDocuments.ReportIsPublication | scripts/validate_release_oci.py:485-491 | for an accepted layout the platforms reported are the two release platforms, each with the digest of its image manifest |
| OciDocuments.EveryDescriptorBound | scripts/validate_release_oci.py:199-232 | every descriptor of the root index, of the release index and inside the manifests has a well-formed digest, a bounded media type and the true size of its blob |
| CapacityBounds.Choose | perf/tools/current_capacity.py:48-59 | the dictionary holds, for each rate, the last of the records that none outranks: a pass or failure before anything else, then the longer window |
| CapacityBounds.Bounds | perf/tools/current_capacity.py:48-63 | the bracket is the highest passing rate and the lowest failing rate above it, lower end below upper end |
| CapacityBounds.BracketUnique | perf/tools/current_capacity.py:48-63 | a history has one bracket |
| CapacityBounds.InsideVerdictMovesBracket | perf/tools/current_capacity.py:383-406 | a conclusive record inside the bracket moves exactly one end there, whatever its window and whatever inconclusive records exist |
| CapacityBounds.MiddleInsideIff | perf/tools/current_capacity.py:395-397 | the bisection rate is strictly inside exactly when the ends are two or more apart |
| CapacityBounds.BisectionHalves | perf/tools/current_capacity.py:383-406 | a conclusive bisection leaves at most half of the bracket, rounded up |
| CapacityBounds.Search | perf/tools/current_capacity.py:383-406 | every point runs for a minute at the rate called for by the bracket of the points before it, none follows an inconclusive one, and the search ends early only where nothing is left to try |
| CapacityBounds.NextRateIff | perf/tools/current_capacity.py:383-406 | the next rate is the middle while the upper end is more than a quarter above the lower one, twice the lower end without an upper one, half the last rate without a pass, the first rate at the outset; nothing else is tried |
| CapacityBounds.SearchHalves | perf/tools/current_capacity.py:383-406 | a conclusive point of the search between positive ends two or more apart halves the bracket |
| CapacityBounds.AdjacentEndsReopen | perf/tools/current_capacity.py:395-397 | with ends 1 and 2 a failure at the repeated rate reopens the bracket |
| CapacityBounds.AdjacentEndsRepeatIff | perf/tools/current_capacity.py:386-397 | with the ends one apart the search repeats a lower end of 1 to 3 and stops from 4 on |
| CapacityBounds.FailedConfirmationLowers | perf/tools/current_capacity.py:407-418 | a failed three-minute confirmation always takes the bracket below the rate it failed at |
| CapacityBounds.PassedConfirmationStays | perf/tools/current_capacity.py:407-418 | a passed one leaves the lower end where it is, confirmed |
| CapacityBounds.Confirm | perf/tools/current_capacity.py:407-418 | every point is at the unconfirmed lower end, or without one at three quarters of the upper end; fewer than three failures mean that the lower end is confirmed, the last point was inconclusive, or time ran out |
| CapacityBounds.BracketHoldsCapacity | perf/tools/current_capacity.py:48-63 | against a service that sustains exactly the rates up to its capacity, the bracket of every history contains that capacity |
| CapacityBounds.CombinedVerdict | perf/tools/current_capacity.py:103-108 | a pass needs all parts to pass, a failure needs all parts conclusive, otherwise the first inconclusive part is returned |

## Left out

- Numbers are mathematical integers and reals: float rounding is not modelled, except the one rounding that a gate compares against. Reported fields that are only rounded for display are absent.
- Rows that make the analyzer raise, consumer lag, wall-clock reads and the sampled forensic log are not part of the stream states.
- Routing by regular expression: each point is taken to reach the worker its metric names; the router's guess for undecodable lines is an input.
- StreamSharding.StreamShard: the error raised when a decoded metric contradicts the router, and any other exception in a worker, is not modelled, because each point is taken to reach the worker its metric names.
- StreamSharding.MergeShard: a worker that reports a reader error, which aborts the merge, is not modelled.
- StreamSharding.ConsumeSharded: workers are modelled one after the other; their processes, pipes and the temporary directory are not modelled.
- LcovMerge.SourceRecord.MergeFrom: the state left behind by a merge that fails half-way is not specified, because callers abandon it.
- LcovFormat.ParseLcov: records are values, so aliasing between parsed records is not captured; error texts and line numbers are absent, and counts written with non-ASCII digits are taken as unreadable.
- Path normalization of coverage sources is an arbitrary function.
- effective_bins, hist_stats and the other delta series of the analyzer would only add easy members.
- The contract rebuilt by the load generator's summary, duration strings and time-unit strings are inputs; the recorded window length is taken as it stands.
- CapacityGate.Evaluate: the search of generator logs and facts for resource faults is a boolean input.
- AuditJournal.JournalScan: hashing of the journal and its byte count are left out; parsed time stamps and decoded chain hashes are inputs.
- ReadyProtocol.WaitReady: clock and deadline are modelled as the list of polls made; hashes are free of collisions. Two seeding runs at the same time are not modelled.
- CapacityBounds.Search: points are verdicts given as a list that ends when the time budget does; running them is left out, and the window recorded is the one asked for.
- OciValidation.Layout.Validate: unpacking the archive, the directory checks, hashing and JSON decoding are done before; numbers in documents are integers.
- CfgGuard.EvaluateIsKleene: blanking of comments and literals is left out; an atom's text is whatever it left.
- RustPath.Resolve: paths are lists of segments, so white space and leading colons are already gone; finding the bindings in Rust sources is left out.
- Docker, HTTP, PostgreSQL and Valkey control, k6 request scenarios, report writers, the other guards over sources and the Rust services themselves.
