# A model of CV-CUDA's profiling pipeline, workspace cache, strided buffers and porting rewriter

The project models four parts of the CV-CUDA repository in Dafny and proves what they keep over whole runs.

**The profiling pipeline** (`Paths`, `PyDict`, `PerfRecorder`, `RecorderRuns`, `NestedRuns`, `RunBench`, `RunPaths`,
`NvtxNames`, `StatTree`, `Unflatten`, `WarmUp`, `ItemTotals`, `Report`, `Summary`, `GatherStats`, `BatchStats`,
`BenchReport`, `BenchFigures`). `CvCudaPerf` records ranges
through a push/pop machine; `run_bench` drives it over all operators; the post-processing expands the recorded flat paths
into a nested dict in a single pass, totals items, separates warm-up batches, gathers the batches of each level and reduces
them to statistics. The single pass is right only because of what the recorder keeps, so the main results cross files: every
good run of the recorder hands on tables in which descendants precede their ancestors; on such tables every range inside a
batch reports the innermost batch's size, every outer range the sum beneath it, and items are conserved. `Report` reads the
result back by the names under which it is written out.

**The workspace cache** (`WorkspaceSteps`, `WorkspaceCache`). Buffers travel between the allocator, a cache per memory kind,
and move-only payload objects. `WorkspaceSteps` is a machine of atomic steps over any number of threads, in which every live
payload object has an identity and moving, resetting, getting and putting name the object; its invariant gives the counter,
linear ownership and event results for every interleaving. `WorkspaceCache` has the classes with their fields; every
constructor and method of them is proved to be a sequence of those steps, and no method assumes that two objects differ.

**Strided buffers** (`Strided`, `FillBuffer`, `MinMax`, `Text`, `ShapeText`, `ZeroCopy`). One theory of nested strides serves
the nested writes into a byte buffer, the planting of extrema and the zero-copy views; the shape parser is separate.

**The porting rewriter** (`Rewriter`, `Porting`). Rules are applied one after another, longest key first. What this computes
is a single leftmost-longest pass with each rule's text as the later rules leave it; the question is on which lines that is
the intended pass.

What the code does not meet, each with an input or family of inputs and the exact condition under which it does:

- `finalize` deletes by string prefix. A failed operator erases every successful operator whose name continues its own
  (`OpFlipX` and `OpFlipXY`, `OpWarpAffine` and `OpWarpAffineInverse`): `RunBench.FailureErasesLongerName`,
  `RunBench.SurvivorsAreSuccessesIff`, `RecorderRuns.FinalizeExact`.
- An outer range totals levels by string prefix, so a level whose name only continues its own is added in when it is listed
  earlier: `ItemTotals.OuterTotalExactIff`. In `run_bench` an operator's own range is wrong iff a lasting operator listed
  earlier has a longer name that starts with its own: `BenchFigures.OperatorTotalIff`, `BenchFigures.LongerNameTakenIn`.
- A batch directly below the recorder's own, never recorded, range makes the warm-up section raise `KeyError`:
  `ItemTotals.BatchUnderRootRaises`, `ItemTotals.ReturnsIff`, and the two calls that do it: `BenchFigures.BatchUnderRootFails`.
- `finalize` does not purge the batch table. After an operator that lost its ranges completed more than `2 * warmup`
  iterations, collecting the statistics raises `KeyError`, and otherwise it does not: `BenchReport.BenchCollectsIff`.
- With `num_iters <= 0`, `run_bench` reads `success` before it is set as soon as one operator initialises:
  `RunBench.RunBench`.
- `run_bench` ends at the object's own path iff no operator that succeeds has a slash in its parameter text:
  `RunPaths.SlashInParams`; a push is undone by its pop iff the message has no slash: `RecorderRuns.PushPopRestores`.
- Outside benchmark mode the batch counter goes up with every batch and never down: `NestedRuns.CallsIdle`.
- A range that is recorded, opened again and given a child is listed before that child: `RecorderRuns.ReopenedRangeOutOfOrder`.
- In-place name expansion gives full names iff every parent listed too late is a root: `NvtxNames.NamesNestIff`.
- The shown rule table rewrites `cvcuda/cuda_tools/` twice: `Porting.FolderRulesInterfere`. A line comes out right iff it does
  not contain that key: `Porting.FolderRulesRightIff`, an instance of `Rewriter.AgreesIff`.

Times are unrounded reals. Ranges are addressed by paths of components. A recorder call that raises is an `Outcome`; a
post-processing step that raises is an `Err` or `None`.

## Model

| member | source | states |
|---|---|---|
| `Paths.JoinAppends` | bench/python/perf_utils.py:127-187 | joining a clean message appends one component, and `dirname` takes exactly it off again |
| `Paths.SplitRender` | bench/python/benchmark.py:641 | splitting a rendered path gives its components back |
| `Paths.RenderSplit` | bench/python/benchmark.py:641 | rendering a split string gives the string back, for every string |
| `Paths.RenderInjective` | bench/python/perf_utils.py:137-141 | two component lists are the same dict key iff they are equal |
| `Paths.DirnameUndoesJoin` | bench/python/perf_utils.py:127-187 | for a path without outer slashes, `dirname` undoes `join` iff the message has no slash |
| `Paths.PrefixMeaning` | bench/python/perf_utils.py:210 | `startswith` between two paths holds iff one is a component prefix of the other or stops inside a component |
| `PyDict.FilterKeepsOrder` | bench/python/perf_utils.py:207-211 | removing keys keeps the order of those that stay |
| `PerfRecorder.CvCudaPerf.constructor` | bench/python/perf_utils.py:54-103 | a new recorder has empty tables and stands at its object's name |
| `PerfRecorder.CvCudaPerf.PushRange` | bench/python/perf_utils.py:105-127 | the whole state after a push, in benchmark mode and outside it |
| `PerfRecorder.CvCudaPerf.NotePath` | bench/python/perf_utils.py:137-157 | the entry in the timing table, the list of deleted ranges and the list of ranges inside a batch |
| `PerfRecorder.CvCudaPerf.CloseBatch` | bench/python/perf_utils.py:168-184 | the batch counter, the batch table and the count of positive batches per level |
| `PerfRecorder.CvCudaPerf.PopRange` | bench/python/perf_utils.py:129-189 | the whole state after a pop, and `IndexError` or `ValueError` exactly when the code raises them |
| `PerfRecorder.CvCudaPerf.FinalizeDeletions` | bench/python/perf_utils.py:191-211 | refused iff something is on the stack; otherwise exactly the keys that no deleted string is a prefix of stay, in order |
| `RecorderRuns.StepFollowsStack` | bench/python/perf_utils.py:119-187 | a sensible call keeps the path equal to the object name joined with the stacked messages |
| `RecorderRuns.RunFollowsStack` | bench/python/perf_utils.py:119-187 | the same over every run of sensible calls |
| `RecorderRuns.StepCounts` | bench/python/perf_utils.py:115-171 | the batch counter stays the number of open batch ranges, and no disciplined pop is refused |
| `RecorderRuns.PushOrdered` | bench/python/perf_utils.py:125-127 | opening a path that was not opened before keeps every recorded range after its descendants |
| `RecorderRuns.PopOrdered` | bench/python/perf_utils.py:137-187 | a pop records a range after all its recorded descendants, and a path that was not recorded before |
| `RecorderRuns.PopTotals` | bench/python/perf_utils.py:173-184 | the per-level counts stay the numbers of recorded batches of positive size |
| `RecorderRuns.PopTables` | bench/python/perf_utils.py:154-184 | the list of ranges inside a batch stays exactly the recorded ranges at or below a batch, up to deleted ones |
| `RecorderRuns.RunKeepsAll` | bench/python/perf_utils.py:105-189 | path, counter, order and tables are kept over every good run |
| `RecorderRuns.GoodRunInv` | bench/python/perf_utils.py:105-189 | all of them at the end of every good run from a new recorder |
| `RecorderRuns.CompleteRunWellRecorded` | bench/python/perf_utils.py:129-211 | a complete good run hands on tables in order, whatever was deleted: inside a batch iff some batch is at or above; counts right |
| `RecorderRuns.PopKeepsOrderIff` | bench/python/perf_utils.py:137-141 | a recording pop keeps the order iff the range was recorded before or no range around it was |
| `RecorderRuns.ReopenedRangeOutOfOrder` | bench/python/perf_utils.py:137-187 | a range recorded, opened again and given a child is listed before the child |
| `RecorderRuns.PushPopRestores` | bench/python/perf_utils.py:127-187 | a push and its pop restore the path iff the message has no slash |
| `RecorderRuns.PushIs` | bench/python/perf_utils.py:115-127 | a push adds one slash and the name to the path, one frame to the stack and, for a batch, one to the counter, and the name of a batch is its message, an underscore and the index |
| `RecorderRuns.PopUnwinds` | bench/python/perf_utils.py:129-187 | a pop with items outside a batch raises `ValueError` with the frame gone and the path not unwound; any other takes the last slash and name off the path and, with items, one off the counter |
| `RecorderRuns.PopEnters` | bench/python/perf_utils.py:137-184 | what a pop enters, table by table: the placeholder (0, 0) or a deleted range; a kept batch with the index it was opened with; one more positive batch of the level one above |
| `RecorderRuns.PopNothing` | bench/python/perf_utils.py:130-132 | `IndexError` exactly on an empty stack in benchmark mode, changing nothing; outside benchmark mode a pop does nothing |
| `RecorderRuns.RunPlaceholders` | bench/python/perf_utils.py:137-144 | over any run, with exceptions or not, every recorded time is the placeholder (0, 0) |
| `RecorderRuns.SparedMeaning` | bench/python/perf_utils.py:207-211 | a key survives iff it is neither at or below a deleted range nor continues one inside a component |
| `RecorderRuns.FinalizeExact` | bench/python/perf_utils.py:204-211 | exactly the deleted ranges and their descendants go iff no other recorded range continues a deleted one inside a component |
| `NestedRuns.CallsBalanced` | bench/python/run_bench.py:115-170 | whatever the messages, a well-nested matched program leaves stack and batch counter as they were |
| `NestedRuns.CallsAt` | bench/python/perf_utils.py:105-189 | a clean well-nested program ends at the path where it began, having recorded and deleted exactly its ranges, inner ones first |
| `NestedRuns.CallsGood` | bench/python/perf_utils.py:105-189 | with distinct sibling names it is a good run and opens exactly its ranges |
| `NestedRuns.CallsBatches` | bench/python/perf_utils.py:173-175 | it adds exactly its undeleted batches, with index and size, to the batch table, in the order in which they are closed |
| `NestedRuns.CallsIdle` | bench/python/perf_utils.py:115-189 | outside benchmark mode it changes nothing but the batch counter, which ends higher by the number of batches |
| `RunBench.Iterate` | bench/python/run_bench.py:141-156 | the iteration loop with its break: which ranges it opens, and what `success` ends as |
| `RunBench.RunOperator` | bench/python/run_bench.py:113-174 | one operator: the recorder's state for each outcome, and whether `success` was set where it is read |
| `RunBench.RunBench` | bench/python/run_bench.py:113-177 | stops at the first operator that initialises iff no iteration was asked for; otherwise closes all it opened and is finalized, or refused iff something was open before; the whole state in and outside benchmark mode |
| `RunBench.EndsWhereItBegan` | bench/python/run_bench.py:113-177 | for clean names the loop ends at the object's own path, with exact timing keys and deleted ranges |
| `RunBench.SuccessRecords` | bench/python/run_bench.py:118-169 | an operator that succeeds records init, its iterations in order, run, parameters and itself, and deletes nothing |
| `RunBench.OperatorTables` | bench/python/run_bench.py:113-174 | the keys of one operator as texts, in order: nothing recorded when it does not initialise; when iteration i fails, the keys before it, with iteration i, `run_op` and the operator deleted; everything when it succeeds |
| `RunBench.RecordsSnoc` | bench/python/run_bench.py:113-177 | the loop records and deletes what its operators do, one operator after another |
| `RunBench.OpenAtError` | bench/python/run_bench.py:138-158 | where the loop stands when it reads the unset `success`: `run_op` and the operator still open, `init_op` recorded |
| `RunBench.SurvivorsExact` | bench/python/run_bench.py:113-177 | which keys survive: those of earlier ranges and of successful operators that no failed operator's path is a string prefix of |
| `RunBench.SuccessSurvives` | bench/python/run_bench.py:113-177 | all keys of a successful operator survive, or none, by whether a failed operator's name is a prefix of its name |
| `RunBench.SurvivorsAreSuccessesIff` | bench/python/run_bench.py:113-177 | the survivors are exactly the earlier keys and the successful operators' iff no failed path is a prefix of one of them |
| `RunBench.FailureErasesLongerName` | bench/python/all_ops/op_flip.py:24-42 | a failed operator erases everything of a successful one whose name continues its own |
| `RunBench.BenchWellRecorded` | bench/python/run_bench.py:113-177 | with distinct clean names the loop hands well-recorded tables to the post-processing |
| `RunPaths.PathOfRun` | bench/python/perf_utils.py:125-187 | the path after a well-nested program, whatever its messages, is joins on the way in and dirnames on the way out |
| `RunPaths.SlashInParams` | bench/python/run_bench.py:160-169 | any list of operators with clean names, any parameter texts: nothing stays open, and the path is the object's own iff no operator that succeeds has a slash in its text |
| `RunPaths.SlashesLeave` | bench/python/run_bench.py:160-169 | a text of `m` clean components leaves the path `m - 1` components below the object's own |
| `NvtxNames.FullName` | bench/python/benchmark.py:267-284 | the name a range gets in the pass, and `KeyError` iff its parent is not listed |
| `NvtxNames.ExpandThread` | bench/python/benchmark.py:262-299 | in place, every range up to the first without a listed parent gets its final name; the dict holds each final name with its last range |
| `NvtxNames.ExpandRaisesIff` | bench/python/benchmark.py:274-291 | the pass raises iff some range names a parent that is not listed, by an id that is not 0; the first of these and all after it keep their names |
| `NvtxNames.NamesAfter` | bench/python/benchmark.py:267-291 | a range without a parent keeps its name, any other ends as parent, slash and own name: the parent's new name if the parent is listed earlier, its old one if not |
| `NvtxNames.DictAfter` | bench/python/benchmark.py:293-299 | the result has an entry exactly for the names that are left, with the last range of each |
| `NvtxNames.FinalNameIsChain` | bench/python/benchmark.py:277-286 | parents first: every range ends with its whole root-to-node chain as its path |
| `NvtxNames.SameNameIffSameChain` | bench/python/benchmark.py:294-299 | two ranges share a final name iff they share their chains |
| `NvtxNames.KeysAreChains` | bench/python/benchmark.py:293-299 | the result has exactly one entry per distinct chain |
| `NvtxNames.LastRangeWins` | bench/python/benchmark.py:293-299 | of the ranges with one chain the last is kept |
| `NvtxNames.NoCycles` | bench/python/benchmark.py:274-280 | parents first: going up reaches a root, so there are no cycles |
| `NvtxNames.NamesNestIff` | bench/python/benchmark.py:274-291 | in any order: every name is its parent's final name and its own iff every parent listed too late is a root |
| `NvtxNames.GrandchildFirst` | bench/python/benchmark.py:274-291 | a grandchild listed before its parent loses the grandparent's name |
| `StatTree.StatPut` | bench/python/benchmark.py:643-672 | storing a dict at a path changes a statistic only at or below the path |
| `StatTree.NodePut` | bench/python/benchmark.py:646-651 | walking to a path creates exactly the missing dicts above it |
| `StatTree.SpreadStat` | bench/python/benchmark.py:704-721 | handing a batch's size down gives a total and per-item times exactly to the dicts with times and no total |
| `StatTree.SpreadShaped` | bench/python/benchmark.py:704-721 | it keeps the tree's shape: numbers under statistic names, dicts under range names |
| `Unflatten.TimesBack` | bench/python/benchmark.py:663-672 | every visited path holds its own times, whatever is visited later |
| `Unflatten.NodesArePrefixes` | bench/python/benchmark.py:639-651 | the tree's dicts are exactly the prefixes of the visited paths |
| `Unflatten.LevelsRight` | bench/python/benchmark.py:723-754 | the counts of a level are the sums over the visited batches directly below it |
| `Unflatten.CountedAndExcluded` | bench/python/benchmark.py:733-754 | every batch is counted or excluded: the two sums make the total |
| `Unflatten.StartingRight` | bench/python/benchmark.py:785-789 | summing the levels that start with a path sums the visited batches of those levels |
| `Unflatten.TreeTotal` | bench/python/benchmark.py:680-800 | the `total_items` at every path after every number of visits |
| `WarmUp.OuterItems` | bench/python/benchmark.py:766-789 | the items of an outer range: its own level's count, or the sum over levels that start with it |
| `WarmUp.TallyBatch` | bench/python/benchmark.py:723-754 | the new counts of a level, `TypeError` for a batch without index, `KeyError` for a level without a batch count |
| `WarmUp.FillDict` | bench/python/benchmark.py:666-800 | what a path's dict is filled with at a batch, inside one, and outside all |
| `WarmUp.VisitPath` | bench/python/benchmark.py:639-800 | one turn of the loop: tree, level counts and level dicts |
| `WarmUp.UnflattenData` | bench/python/benchmark.py:613-841 | both loops: the expanded tree, or the exception |
| `WarmUp.FinishFigures` | bench/python/benchmark.py:807-838 | every level's figures are computed from its own total, times and counts, whatever other levels are finished before or after |
| `WarmUp.FinishFailsIff` | bench/python/benchmark.py:810-825 | the warm-up section raises iff some level's dict lacks a total or times |
| `WarmUp.FinishKeeps` | bench/python/benchmark.py:807-838 | it changes no time, total or per-item time |
| `ItemTotals.FlattenUndoesUnflatten` | bench/python/benchmark.py:639-672 | flattening the result gives the recorded data back: its times at every recorded path, none elsewhere |
| `ItemTotals.TreeIsPrefixClosure` | bench/python/benchmark.py:639-651 | the result's dicts are exactly the component prefixes of the recorded paths |
| `ItemTotals.InsideTotals` | bench/python/benchmark.py:700-721 | every range inside a batch reports the size of the innermost positive batch around it, none if there is none |
| `ItemTotals.BatchTotals` | bench/python/benchmark.py:687-688 | a batch reports its own size |
| `ItemTotals.OuterTotals` | bench/python/benchmark.py:760-800 | an outer range reports its direct batches; without any, all batches beneath it plus look-alike levels visited before it |
| `ItemTotals.OuterTotalExactIff` | bench/python/benchmark.py:785-800 | that sum is what lies beneath iff the look-alikes sum to nothing; with no negative size iff no batch with items is listed earlier in a level that continues the range's name |
| `ItemTotals.StartingSplits` | bench/python/benchmark.py:787-789 | comparing level names as strings adds the look-alikes to what lies beneath |
| `ItemTotals.PerItemTimes` | bench/python/benchmark.py:690-800 | per-item times are times divided by a positive total; with any other total nothing for a batch and 0 for an outer range; without a total nothing |
| `ItemTotals.PassFine` | bench/python/benchmark.py:639-800 | on what the recorder hands on, the pass over the paths never raises |
| `ItemTotals.ReturnsIff` | bench/python/benchmark.py:613-838 | the function returns iff every batch lies directly in a range that was itself recorded with a total; otherwise it raises `KeyError` |
| `ItemTotals.BatchUnderRootRaises` | bench/python/benchmark.py:810-812 | a batch directly under the object's own range makes it raise `KeyError` |
| `ItemTotals.LevelFigures` | bench/python/benchmark.py:807-838 | a level's six figures: counted items, total and times without the warm-up, and these times per counted item, 0 when none is counted |
| `ItemTotals.ItemsConserved` | bench/python/benchmark.py:731-816 | at a level outside all batches: total is the direct sum, counted plus excluded items make it, and these are what is reported |
| `ItemTotals.CountedAreTheMiddle` | bench/python/benchmark.py:735-742 | of `n` batches numbered from 0 exactly those from `warmup` to `n - warmup` are counted, `max(0, n - 2 * warmup)` of them |
| `ItemTotals.UniformLevel` | bench/python/benchmark.py:723-742 | batches of one size: the level totals size times number, of which the middle ones are counted |
| `Report.ReportedTimes` | bench/python/benchmark.py:663-672 | walking down to "cpu_time" and "gpu_time" reads the recorded times, at exactly the recorded paths |
| `Report.ReportedItems` | bench/python/benchmark.py:687-800 | "total_items" reads a batch's size, or the direct batches of an outer range, or all beneath it with the look-alikes |
| `Report.ReportedPerItem` | bench/python/benchmark.py:690-800 | "cpu_time_per_item" and "gpu_time_per_item" read the recorded times over the total that is read, or 0, or nothing |
| `Report.ReportedLevel` | bench/python/benchmark.py:807-838 | the six warm-up names of every batch level, each read under its own name from the level's times, counted items and warm-up times |
| `Report.OnlyLevelsReport` | bench/python/benchmark.py:807-838 | no other path has any of the six names |
| `Report.FiguresNumbered` | bench/python/benchmark.py:733-754 | with batches numbered from 0: the counted items are the sizes of all but the first and last `warmup`, and the warm-up times the times of these |
| `GatherStats.GatherInto` | bench/python/benchmark.py:410-451 | one input gathered into the target, key by key in any order, or the exception |
| `GatherStats.GatherAt` | bench/python/benchmark.py:422-451 | seen from a path: a leaf is added there, a dict leaves a dict, anything else changes nothing |
| `GatherStats.KeptMeans` | bench/python/benchmark.py:423-424 | the paths that are gathered are exactly those that name none of the three item counts |
| `GatherStats.GatherSkips` | bench/python/benchmark.py:423-424 | under the names of the three item counts the target stays as it was |
| `GatherStats.GatheredAt` | bench/python/benchmark.py:410-451 | many inputs, with numbers, lists and dicts: at every path that names no item count, what its entries make of it in turn; nothing at any other |
| `GatherStats.GatheredNumbers` | bench/python/benchmark.py:410-451 | of numbers and dicts: at every path that names no item count the list of the numbers in input order, a dict where some input has one, nothing else; nothing at any other |
| `GatherStats.GatheredRows` | bench/python/benchmark.py:433-451 | of lists: one list for each place, with the numbers of that place in input order |
| `GatherStats.LongerListFails` | bench/python/benchmark.py:440-451 | a list longer than the first one at its path makes gathering raise |
| `GatherStats.GatherAllFailsIff` | bench/python/benchmark.py:419-451 | gathering any inputs raises iff at some path an entry cannot enter what the earlier ones made there |
| `GatherStats.NumbersFailIff` | bench/python/benchmark.py:419-451 | of numbers and dicts: iff some path holds a dict in one input and a number in another |
| `GatherStats.CalcStats` | bench/python/benchmark.py:471-515 | every list replaced by its record, row by row for a list of lists, in place, recursively |
| `GatherStats.CalcFailsIff` | bench/python/benchmark.py:484-515 | reducing raises iff some list is neither of numbers nor of lists of one length, or more than the mean of an empty one is asked for |
| `GatherStats.NoRecordIff` | bench/python/benchmark.py:484-515 | which lists have no record: a number beside a list, lists of different lengths, or more than the mean of nothing |
| `GatherStats.NumbersReduced` | bench/python/benchmark.py:484-515 | the record of a list of numbers, field by field: their number; mean times number is the sum; bounds that are members; variance 0 iff all equal the mean; 16th percentile, median, 84th and 95th in order; elements of the sorted list for 100m + 1 numbers |
| `GatherStats.EvenFigures` | bench/python/benchmark.py:501-509 | percentiles interpolate: on a list whose sorted form has equal steps each field lies that part of the way along |
| `GatherStats.RowsReduced` | bench/python/benchmark.py:486-515 | a list of lists has one set of figures for each row, each described field by field; all rows have them or none has |
| `Summary.MeanBetween` | bench/python/benchmark.py:491-499 | the unrounded mean lies between the extremes, and times the count it is the sum |
| `Summary.SortedUnique` | bench/python/benchmark.py:501-509 | a sorted list is determined by its numbers, so the order in which they were gathered does not matter to the percentiles |
| `Summary.MedianIsHalfway` | bench/python/benchmark.py:501-509 | the median is the 50th percentile |
| `Summary.FiguresOrdered` | bench/python/benchmark.py:497-509 | minimum, 16th percentile, median, 84th, 95th and maximum are in this order |
| `Summary.VarianceSign` | bench/python/benchmark.py:500 | the deviation is never negative, and zero iff all numbers are the mean |
| `Summary.VarianceIs` | bench/python/benchmark.py:500 | times the count it is the sum of the squares less the count times the squared mean |
| `Summary.PercentileIsElement` | bench/python/benchmark.py:501-509 | on 100m + 1 numbers the q-th percentile is element q*m of the sorted list |
| `Summary.PercentileOfEvenSteps` | bench/python/benchmark.py:501-509 | on equal steps it lies q per cent of the way along |
| `GatherStats.GatherThenCalc` | bench/python/benchmark.py:410-566 | gathering then reducing always works on shape-compatible trees: a record, described field by field, at exactly the paths with numbers that name no item count, made of those numbers; nothing under the item counts |
| `BatchStats.CollectStats` | bench/python/benchmark.py:861-901 | the loop over the batch table: counted batches gathered under their level, or the exception |
| `BatchStats.GatheredMeans` | bench/python/benchmark.py:883-888 | a batch is gathered iff it has items and its index is from `warmup` up to the level's count less `warmup`; when it raises `TypeError` or `KeyError` instead |
| `BatchStats.ShapedNeverClash` | bench/python/benchmark.py:901 | subtrees of an expanded tree never clash |
| `BatchStats.CollectsIff` | bench/python/benchmark.py:883-894 | collecting raises iff a batch that is to be gathered is missing from the tree, and then `KeyError` |
| `BatchStats.StatsAre` | bench/python/benchmark.py:883-901 | each level holds what gathering its counted batches, in table order, gives |
| `BatchStats.LevelRecords` | bench/python/benchmark.py:861-906 | each record is made of that statistic in exactly the counted batches that have it, in order |
| `BenchReport.SessionReturnsIff` | bench/python/perf_utils.py:105-211 | from any complete recording session to the expanded tree: returns iff every surviving batch's level was reported |
| `BenchReport.ProgramBatches` | bench/python/run_bench.py:141-152 | the batches of the whole loop are exactly the completed iterations |
| `BenchReport.KeyTexts` | bench/python/run_bench.py:138-143 | the keys of an operator's run level and iterations, as texts |
| `BenchReport.NewRecorderIsValid` | bench/python/run_bench.py:113-177 | the results on `run_bench` apply to every run from a new recorder with distinct clean names |
| `BenchReport.BenchUnflattens` | bench/python/benchmark.py:613-838 | what `run_bench` hands on is expanded without an exception, whatever failed |
| `BenchReport.BenchCollectsIff` | bench/python/benchmark.py:861-901 | its statistics can be collected iff every operator that lost its ranges completed at most `2 * warmup` iterations, or batches are empty |
| `BenchReport.OperatorItems` | bench/python/benchmark.py:723-816 | a surviving operator's run reports iterations times batch size, and the middle ones without the warm-up |
| `BenchFigures.EarlierFirst` | bench/python/run_bench.py:113-177 | all that survives of an operator is listed before all that survives of a later one |
| `BenchFigures.OperatorTotalIff` | bench/python/benchmark.py:785-800 | a lasting operator's own range reports its items iff no lasting operator listed earlier has a name that properly continues its own |
| `BenchFigures.LongerNameTakenIn` | bench/python/benchmark.py:785-800 | two operators on a new recorder for which it does not: a good complete run and its report |
| `BenchFigures.BatchUnderRootFails` | bench/python/benchmark.py:810-812 | one batch pushed and popped on a new recorder: a good complete run whose tables make the function raise |
| `BenchFigures.LevelGathers` | bench/python/benchmark.py:861-901 | the batches gathered for a lasting operator are its middle iterations, in order |
| `BenchFigures.OperatorRecords` | bench/python/benchmark.py:861-906 | its four time records exist iff the warm-up leaves an iteration, are found under their names, and are made of exactly the times recorded for iterations `warmup` to `n - warmup`, in order, and of these divided by the batch size |
| `BenchFigures.OperatorFigures` | bench/python/benchmark.py:639-838 | everything a lasting operator's run level reports, name by name: times, items, the same without the first and last iterations, and both per item |
| `WorkspaceSteps.StepKeepsCounter` | python/mod_cvcuda/WorkspaceCache.hpp:139-156 | each atomic step keeps every counter equal to the objects that hold a payload, the threads inside get and put, and what was destroyed outside the caches |
| `WorkspaceSteps.StepKeepsOwnership` | python/mod_cvcuda/WorkspaceCache.hpp:62-214 | each step, moves and resets included, keeps every buffer in the cache, in one object, or freed once with its own size and alignment |
| `WorkspaceSteps.StepKeepsEvents` | python/mod_cvcuda/WorkspaceCache.hpp:187-214 | each step keeps every event with one live payload, in the pool, or destroyed |
| `WorkspaceSteps.ReachableInv` | python/mod_cvcuda/WorkspaceCache.hpp:62-223 | all of this for every interleaving of every number of threads |
| `WorkspaceSteps.OnePlace` | python/mod_cvcuda/WorkspaceCache.hpp:62-214 | after any run a buffer is in the cache, in exactly one live object, or freed exactly once, and only one of these |
| `WorkspaceSteps.MoveTransfers` | python/mod_cvcuda/WorkspaceCache.hpp:67-73 | after any run a move hands the payload over unfreed, frees what the target held exactly once and touches no other object |
| `WorkspaceSteps.CounterIsExact` | python/mod_cvcuda/WorkspaceCache.hpp:139-156 | when payloads leave their objects only through put, the counter is exactly the holding objects and the threads inside |
| `WorkspaceSteps.ZeroMeansAllCached` | python/mod_cvcuda/WorkspaceCache.hpp:158-162 | a counter that reads 0 means every live buffer of its kind is in the cache and no thread is inside |
| `WorkspaceSteps.PurgeSparesLeases` | python/mod_cvcuda/WorkspaceCache.hpp:158-162 | a purge frees exactly the cached buffers of its kind, each once, and no leased one |
| `WorkspaceSteps.ClearReturnsEverything` | python/mod_cvcuda/WorkspaceCache.cpp:85-91 | after `clear` with no lease outstanding no buffer is live, each was freed once, and every event is destroyed |
| `WorkspaceSteps.PoolFirstLeavesEvents` | python/mod_cvcuda/WorkspaceCache.cpp:85-91 | purging the event pool first would leave in it the events of all cached payloads |
| `WorkspaceCache.WorkspaceCache.constructor` | python/mod_cvcuda/WorkspaceCache.cpp:48-59 | a new cache is the machine's initial state |
| `WorkspaceCache.WorkspaceCache.Delete` | python/mod_cvcuda/WorkspaceCache.hpp:187-200 | the deleter frees the buffer and gives its event to the pool |
| `WorkspaceCache.WorkspaceCache.GetMem` | python/mod_cvcuda/WorkspaceCache.hpp:139-150 | get into a new object is increment, then take or create; empty iff the requested size is 0; every other live object stays as it was |
| `WorkspaceCache.WorkspaceCache.Count` | python/mod_cvcuda/WorkspaceCache.hpp:144 | the counter step of get |
| `WorkspaceCache.WorkspaceCache.CreateMem` | python/mod_cvcuda/WorkspaceCache.hpp:202-214 | create makes one payload of the requested kind, size and alignment with a new event |
| `WorkspaceCache.WorkspaceCache.PutMem` | python/mod_cvcuda/WorkspaceCache.hpp:152-156 | put is store, then decrement, and empties the object it is given |
| `WorkspaceCache.WorkspaceCache.Keep` | python/mod_cvcuda/WorkspaceCache.hpp:154 | the store step: the payload leaves its object for the cache |
| `WorkspaceCache.WorkspaceCache.Uncount` | python/mod_cvcuda/WorkspaceCache.hpp:155 | the counter step of put |
| `WorkspaceCache.WorkspaceCache.PurgeKind` | python/mod_cvcuda/WorkspaceCache.hpp:158-162 | a purge destroys every cached payload of the kind; the debug assertion holds iff the counter reads 0 |
| `WorkspaceCache.WorkspaceCache.ClearAll` | python/mod_cvcuda/WorkspaceCache.cpp:85-91 | the three caches are purged, then the event pool; the debug assertions hold iff all counters read 0 |
| `WorkspaceCache.WorkspaceCache.Lease` | python/mod_cvcuda/WorkspaceCache.cpp:61-77 | one part per kind, moved into the lease; the cache's state is three gets |
| `WorkspaceCache.CachedWorkspaceMem.Empty` | python/mod_cvcuda/WorkspaceCache.hpp:49-54 | a new empty object |
| `WorkspaceCache.CachedWorkspaceMem.FromCache` | python/mod_cvcuda/WorkspaceCache.hpp:145-147 | a new object takes a payload out of the cache |
| `WorkspaceCache.CachedWorkspaceMem.Created` | python/mod_cvcuda/WorkspaceCache.hpp:56-60 | a new object owns the memory and event made for it |
| `WorkspaceCache.CachedWorkspaceMem.MovedFrom` | python/mod_cvcuda/WorkspaceCache.hpp:62-65 | a new object takes over what another held, and nothing is destroyed |
| `WorkspaceCache.CachedWorkspaceMem.Reset` | python/mod_cvcuda/WorkspaceCache.hpp:80-88 | a payload that is held is destroyed once, an empty one not at all |
| `WorkspaceCache.CachedWorkspaceMem.End` | python/mod_cvcuda/WorkspaceCache.hpp:75-78 | the destructor resets, and the object is gone |
| `WorkspaceCache.CachedWorkspaceMem.MoveFrom` | python/mod_cvcuda/WorkspaceCache.hpp:67-73 | for any two live objects, also one and the same: swap, then reset of the source |
| `WorkspaceCache.SoleOwner` | python/mod_cvcuda/WorkspaceCache.hpp:45-113 | two live objects of a cache never hold the same buffer, and what one holds is neither cached nor freed |
| `WorkspaceCache.WorkspaceLease.constructor` | python/mod_cvcuda/WorkspaceCache.cpp:22-36 | the lease takes the three payloads and leaves their sources empty |
| `WorkspaceCache.WorkspaceLease.Release` | python/mod_cvcuda/WorkspaceCache.cpp:38-46 | the destructor returns exactly the non-empty parts and leaves them empty |
| `WorkspaceCache.GetIsSteps` | python/mod_cvcuda/WorkspaceCache.hpp:139-150 | in each of its three cases a get is one new object, or the counter and then a payload from the cache or newly made |
| `WorkspaceCache.PutIsSteps` | python/mod_cvcuda/WorkspaceCache.hpp:152-156 | a put is the store and then the counter |
| `WorkspaceCache.GetEffect` | python/mod_cvcuda/WorkspaceCache.hpp:139-150 | what a get returns: nothing for size 0; otherwise a payload of the kind, at least as large and as aligned as asked for, out of the cache and held by nobody else, found or newly made exactly as asked for; only the counter of the kind rises |
| `WorkspaceCache.GetKeepsInv` | python/mod_cvcuda/WorkspaceCache.hpp:139-150 | a get keeps every invariant and hands out no payload that is already held |
| `WorkspaceCache.PutKeepsInv` | python/mod_cvcuda/WorkspaceCache.hpp:152-156 | a put keeps every invariant |
| `WorkspaceCache.LeaseEffect` | python/mod_cvcuda/WorkspaceCache.cpp:61-77 | three gets: parts of their kinds, at least as large and as aligned as asked for, distinct, held by nobody before; a part is empty iff its requested size is 0; each counter rises by one for each part |
| `WorkspaceCache.ReleaseEffect` | python/mod_cvcuda/WorkspaceCache.cpp:38-46 | three puts: exactly the parts are back in the cache, each counter falls by one for each part, and nothing is freed |
| `Strided.DotInside` | bench/BenchUtils.hpp:200-204 | with nested strides every element lies inside outermost extent times stride |
| `Strided.ElementsDisjoint` | bench/BenchUtils.hpp:200-204 | with nested strides distinct coordinates address disjoint bytes |
| `Strided.ContiguousNested` | samples/common.py:173-178 | C-contiguous strides are nested |
| `FillBuffer.Fill` | bench/BenchUtils.hpp:251-270 | the four loops: every coordinate reads back its generated value and every other byte is unchanged |
| `FillBuffer.FilledUnique` | bench/BenchUtils.hpp:251-270 | that determines the buffer |
| `FillBuffer.FilledAt` | bench/BenchUtils.hpp:251-270 | at ranks 1 to 4: the bytes at the sum of coordinate times stride are the value generated for that coordinate, missing ones taken as 0 |
| `FillBuffer.FillTensor` | bench/BenchUtils.hpp:272-316 | a zeroed buffer of outermost extent times stride is filled, or the rank is refused |
| `MinMax.Shuffle` | bench/BenchMinMaxLoc.hpp:57-58 | the row after exchanging each place with the one drawn for it: its contents stay, and so does everything outside it |
| `MinMax.ShuffleReaches` | bench/BenchMinMaxLoc.hpp:57-58 | every order of the row comes out for some draws |
| `MinMax.ClampNeverFires` | bench/BenchMinMaxLoc.hpp:37-48 | the clamp never changes a row's count for a request that is not negative |
| `MinMax.RowInside` | bench/BenchMinMaxLoc.hpp:47-58 | every row lies inside the buffer |
| `MinMax.RandomMinMax` | bench/BenchMinMaxLoc.hpp:33-63 | refused iff the locations do not fit; otherwise every row is its old row with extrema over its front, shuffled by its draws, and everything outside the rows is unchanged |
| `MinMax.RowCounts` | bench/BenchMinMaxLoc.hpp:49-56 | a row that avoided both extremes has exactly the planted number of each |
| `MinMax.SampleTotals` | bench/BenchMinMaxLoc.hpp:37-61 | a sample has `height * (locs div height)` minima and as many maxima, never more than asked for |
| `MinMax.FilledAvoids` | bench/BenchMinMaxLoc.hpp:25-31 | a buffer filled by a generator that avoids both extremes avoids them everywhere |
| `MinMax.FillTensorWithMinMax` | bench/BenchMinMaxLoc.hpp:65-87 | the refusal, or every row: the generated values with the minima and then the maxima over the front, shuffled; all bytes outside the rows 0; and the counts of each sample |
| `Text.NumberOfDigits` | bench/BenchUtils.hpp:98 | reading printed digits gives the number back |
| `Text.DecimalInjective` | bench/python/perf_utils.py:119-121 | different batch indices give different messages |
| `ShapeText.StoiDecimal` | bench/BenchUtils.hpp:98 | `stoi` undoes printing for the numbers an `int` holds and refuses the others |
| `ShapeText.StoiBlanks` | bench/BenchUtils.hpp:98-99 | blanks in front do not matter |
| `ShapeText.StoiUnsigned` | bench/BenchUtils.hpp:98-99 | digits and then anything read as the number, up to 2147483647; without digits it is refused |
| `ShapeText.StoiSigned` | bench/BenchUtils.hpp:98-99 | the same after a sign, down to -2147483648 |
| `ShapeText.GetShape` | bench/BenchUtils.hpp:84-105 | the find/erase loop reads the parts in order when there are exactly N, and is refused otherwise |
| `ShapeText.ParseFailure` | bench/BenchUtils.hpp:98 | when reading fails it is because of the first part that is no number |
| `ShapeText.ParsePrint` | bench/BenchUtils.hpp:84-105 | parsing undoes printing for every tuple of `int`-sized numbers |
| `ShapeText.PartsCount` | bench/BenchUtils.hpp:93-97 | the number of parts is the number of delimiters plus one |
| `ZeroCopy.ZeroCopySplit` | samples/common.py:169-210 | for every view and coordinate the view's address is the batch's, with and without explicit strides; other ranks are refused |
| `ZeroCopy.ViewsCover` | samples/common.py:190-210 | together the views have exactly the batch's elements |
| `ZeroCopy.ViewsDisjoint` | samples/common.py:190-210 | elements of different views share no byte when the batch's strides do not overlap |
| `Rewriter.ReplaceAbsent` | simple_porting_cv_cuda.py:127-128 | the guard before `replace` changes nothing |
| `Rewriter.FirstMatchIsLongest` | simple_porting_cv_cuda.py:103 | in a table sorted by key length the pass picks a longest matching key |
| `Rewriter.SequentialIsClosedPass` | simple_porting_cv_cuda.py:124-128 | when later keys meet inserted text only inside it: rule by rule is, on every line, the single pass with each text as the later rules leave it |
| `Rewriter.SequentialIsOnePass` | simple_porting_cv_cuda.py:124-128 | when they do not meet it at all: on every line the single leftmost-longest pass |
| `Rewriter.AgreesIff` | simple_porting_cv_cuda.py:124-128 | when later rules only lengthen texts: a line comes out right iff the pass applies to it only rules whose text is left alone |
| `Rewriter.FirstApplied` | simple_porting_cv_cuda.py:103-128 | the pass applies the first rule iff its key occurs, when no key runs into it |
| `Porting.TransformText` | simple_porting_cv_cuda.py:119-130 | the loops compute, line by line, the line itself for comments and `cub/` lines and the rewritten line for all others |
| `Porting.SkipMeans` | simple_porting_cv_cuda.py:114-116 | a line is skipped iff it is blanks and then `//`, `/*` or `*` |
| `Porting.CommentUnchanged` | simple_porting_cv_cuda.py:114-124 | blanks, one of the three marks and anything: the line comes out unchanged, for every table |
| `Porting.CubUnchanged` | simple_porting_cv_cuda.py:125 | so does a line with `cub/` in it |
| `Porting.CodeRewritten` | simple_porting_cv_cuda.py:124-128 | any other line comes out rewritten rule after rule |
| `Porting.LineByLine` | simple_porting_cv_cuda.py:119-130 | a text comes out line by line, each line as it would alone |
| `Porting.SplitGivesLines` | simple_porting_cv_cuda.py:121 | splitting cuts the text after every line break, "\r\n" counting as one |
| `Porting.LinesUnique` | simple_porting_cv_cuda.py:121 | there is no other way to cut a text into lines |
| `Porting.LineBreakChars` | simple_porting_cv_cuda.py:121 | which characters end a line |
| `Porting.BlankChars` | simple_porting_cv_cuda.py:115 | which characters are blank |
| `Porting.TransformAppend` | simple_porting_cv_cuda.py:120-130 | the transform distributes over concatenation at a line end |
| `Porting.TransformUntouched` | simple_porting_cv_cuda.py:114-128 | comment lines, `cub/` lines and lines without a key come out as they went in |
| `Porting.SafeTransform` | simple_porting_cv_cuda.py:119-130 | for a safe table the whole text is rewritten as by the single pass |
| `Porting.ConcatSplitLines` | simple_porting_cv_cuda.py:121-130 | splitting into lines loses nothing |
| `Porting.KeptTableIsUsable` | simple_porting_cv_cuda.py:94-102 | the filter never lets the empty key into the table |
| `Porting.SortedTable` | simple_porting_cv_cuda.py:103 | the sorted table holds the same rules, longest key first, keys of one length in their old order |
| `Porting.FolderRulesRightIff` | simple_porting_cv_cuda.py:74-128 | the shown pair, alone or with the third path rule: every line is rewritten as intended iff it does not contain `cvcuda/cuda_tools/` |
| `Porting.FolderRulesInterfere` | simple_porting_cv_cuda.py:74-75 | the folder rule fires again on the text the longer rule put in |
| `Porting.FolderRulesOrder` | simple_porting_cv_cuda.py:74-103 | the sort puts the longer of the two first |
| `Porting.SlashRulesAreSafe` | simple_porting_cv_cuda.py:74-76 | the two folder rules that end in a slash are safe on every line |

## Left out

- Rounding to 4 decimals: times and figures are exact reals.
- `merge_cpu_and_gpu_ranges` and `calc_mean_ranges`: a lookup join and a mean per key, easy members beside the tree.
- Parsing of the Nsight reports, JSON and file I/O, subprocesses, clock control, plotting, argument parsing and multiprocessing.
- The outer loops of `expand_nvtx_range_names` over processes and threads: parents are only looked up inside one thread.
- Nested dicts are values addressed by paths: writes through a shared reference into the tree are not captured, and `batch_dicts` keeps paths.
- The four per-level dicts of the single pass are one dict of records; they always have the same keys.
- WarmUp.VisitPath: requires paths without empty components and without a range named like a statistic (`cpu_time`, ...), which would mix numbers with dicts.
- WarmUp.UnflattenData: requires the same of every recorded path.
- `push_range` with no message, the NVTX calls, the clock and the JSON that `finalize` writes after its deletion pass.
- An operator that raises inside an iteration: the exception leaves `run_bench` with its ranges open.
- The image decoder's own range and the cache-limit reset in `run_bench`: the loop is entered from any idle recorder.
- Rewriter.AgreesIff: for tables in which a later rule reaches over an edge of inserted text, or shortens such a text, no exact condition is given; the project's own path rules are not of this kind.
- GatherStats.CalcStats: throughput figures are not modelled; the deviation is its square; NumPy is taken to refuse lists of different lengths.
- GatherStats.GatherInto: which exception is raised is not distinguished.
- The insides of `PerStreamCache`, `EventCache`, `CudaEvent` and the allocator: a cache get takes some stored payload that fits or none, put stores, a purge destroys all, allocation returns a fresh buffer.
- Stream order, exceptions from allocation or event creation, and the order in which the three parts of a lease are obtained, which C++ leaves open: they are obtained host, pinned, CUDA.
- Two threads inside one payload or lease object: each such object belongs to one thread, while the cache is shared by all.
- Copies to the device and data export in `FillTensor` and `FillTensorWithMinMax`; integer width of byte offsets and of the location count.
- Random generators are arbitrary functions, and `std::shuffle` exchanges each place of a packed row with an arbitrary one not after it.
- `typestr`, `version` and the kept reference of a zero-copy view, and `as_tensor`.
- The JSON mapping files, the rewrite scopes, file names and the directory walk of the porting script: the rule list is a parameter.
- The operator shims in `src/cvcuda`, the other benchmarks, enum exports and the other samples: forwarding, tables and bindings.
