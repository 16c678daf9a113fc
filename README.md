# cross_talk in Dafny

A Dafny model of the core of **cross_talk**, a desktop tool for four-channel
(A, G, C, T) fluorescence traces from DNA sequencing. Each channel's dye leaks
into the others. The tool estimates the 4×4 crosstalk matrix from the traces and
removes the crosstalk by applying the matrix's inverse. Around this estimator it
keeps the bookkeeping of a Qt application: loaded files, processed-sequence
folders, a batch queue, per-file matrices and iteration diagnostics, tabs,
caches and dialogs.

What the model covers, one Dafny module per source file:

- **The estimator** (`Estimation`, `SeqUtils`; `LegacyUtils` for the older
  copy in `utils.py`).
  - `W` starts as the identity. Each round fits the 12 ordered channel pairs on
    the minima of sections of a quantile band, writes each slope off the diagonal
    of a per-round matrix, and tests `|max(slopes)| < epsilon`.
  - A round that does not stop is folded into `W`, and the data are unmixed with
    its inverse.
  - At the end `W` is normalised so that each column sums to one.
  - `EstimateCrosstalk` is the source's while loop, proved equal to the recursive
    trace `Run`. The lemmas about `Run` bound the number of rounds, give the
    per-round matrices and their product, and show the columns of the result sum
    to one.
  - `deleteCrossTalk` adds smoothing, baseline correction and unmixing, with the
    aliasing of the caller's frame the source has.
- **Helpers and generators** (`AppUtils`, `GenerateUtils`, `LoadUtils`).
  - The pair layout of `makeFig`.
  - `get_matrix_difference`.
  - The copy semantics of `smooth_func`.
  - The synthetic mixing matrix and test data.
  - Loader dispatch and numeric coercion.
- **Files and naming** (`CoreProcessing`, `Naming`, `FileOperations`,
  `Registry`).
  - The `processed_sequences/<stem>_seq` folder and clean-file names.
  - The display-name registry.
  - Folder scans, the file list, deletion and the test-data counter.
- **The processing API** (`SequenceApi`, `ProcessorApi`).
  - Column validation of a `Sequence`.
  - Algorithm selection and per-sequence statistics; the process pool is a
    completion order.
- **GUI state** (`DataProcessing`, `IterationManagement`, `DataManagement`,
  `TabManagement`, `PlotRendering`, `LegacyPlotting`, `IterationResults`,
  `Convergence`, `Dialogs`).
  - Classes whose fields are the source's dictionaries, lists and counters.
  - Methods that change them, with `modifies` clauses and full post-states.
  - Invariants: tab order, cache bounds, navigation bounds, queue indices.

Supporting modules:

- `PyCore`, `PyStr`, `PyPath`, `PyDict`, `PySlice`: the Python built-ins the
  source relies on. These are `os.path.splitext`, `basename` and `join`, `str`
  search, insertion-ordered dictionaries, and extended slices.
- `Frames`: a data frame as labels and rows.
- `Matrix`: 4×4 matrices.
- `Kernels`: the numeric kernels.

**Parameters instead of effects.** Code the model cannot see, and effects
that are not deterministic, become parameters:

- The numeric kernels are function values in a `Kernels.Numerics` record:
  - the quantile-regression fit (`l1_regression`) and pandas quantiles;
  - the matrix inverse;
  - the peakutils baseline and the Savitzky–Golay filter;
  - the Gaussian peak.
- The random draws of the generators are sequences passed in.
- The file system is a set of existing paths, folder listings and loader
  results.
- The user's answers to dialogs are values, or a sequence of actions.
- The order in which pool workers finish is a permutation.

## Model

| member | source | states |
|---|---|---|
| AppUtils.Trunc | app/utils/utils.py:19-20 | Python's `int(x)` rounds toward zero: the result is the integer part of `x`, for negative `x` as well |
| AppUtils.MakeFig | app/utils/utils.py:16-30 | `makeFig` succeeds exactly when the frame has at most six column pairs; otherwise it raises IndexError. On success each unordered pair (i, j), i < j, in loop order, gets the next subplot and shows rows `int(qu1*samples)` to `int(qu2*samples)` |
| AppUtils.PlaceRow | app/utils/utils.py:23-30 | The inner loop for row i places a subplot for every pair (i, j), j > i, extending the layout of the earlier rows; it stops with IndexError only when the frame has more than six pairs |
| AppUtils.RowsBeforePrefix | app/utils/utils.py:22-23 | The pairs visited by the first rows of the double loop are a prefix of those visited by more rows, so the placement only ever grows |
| AppUtils.PairsOverflow | app/utils/utils.py:26-31 | Reaching a pair after six have been placed means the frame has more than six pairs |
| AppUtils.FourChannelLayout | app/utils/utils.py:16-30 | With the four channels the figure shows the six pairs (0,1), (0,2), (0,3), (1,2), (1,3), (2,3), each on its own subplot |
| AppUtils.ManyColumnsOverflow | app/utils/utils.py:16-30 | Five or more columns give more than six pairs, so `makeFig` fails on them |
| AppUtils.SmoothFunc | app/utils/utils.py:33-37 | `smooth_func` returns a new frame, with the same columns and row count, in which every column is replaced by its Savitzky-Golay filtered version; the input frame is untouched, and a failing filter makes the whole call fail |
| AppUtils.SmoothedFails | app/utils/utils.py:35-36 | A single column the filter cannot replace makes the whole column-wise replacement fail |
| AppUtils.SmoothedColumn | app/utils/utils.py:35-36 | Each smoothed column is the filter applied to that column alone |
| AppUtils.MatrixDifference | app/utils/utils.py:40-46 | `get_matrix_difference` is None exactly when either matrix is missing; otherwise it is a non-negative number |
| AppUtils.MatrixDifferenceZeroIffEqual | app/utils/utils.py:40-46 | The difference is symmetric, and it is zero exactly when the two matrices are equal |
| Convergence.SummaryNonNegative | app/ui/widgets/convergence_widget.py:130-138 | Every value the tab plots is an absolute slope, so it is never negative |
| Convergence.YTop | app/ui/widgets/convergence_widget.py:224-229 | The top of the y range is at least 1.1 times the largest value and at least twice the threshold |
| Convergence.YRangeShowsAll | app/ui/widgets/convergence_widget.py:224-229 | With y range 0 to that top, every plotted value and the threshold line are inside the plot |
| Convergence.ConvergenceWidget.constructor | app/ui/widgets/convergence_widget.py:26-37 | A new tab holds no values and the threshold 0.05 |
| Convergence.ConvergenceWidget.SetConvergenceData | app/ui/widgets/convergence_widget.py:110-141 | `set_convergence_data` replaces the old values: an iteration is listed exactly when at least one of its pairs has a non-None slope, and its value is the largest absolute slope among them (a missing slope counts as 0); the threshold is unchanged |
| Convergence.ConvergenceWidget.InfoReport | app/ui/widgets/convergence_widget.py:143-173 | With no values the label says there is no data. Otherwise it reports the value of the last iteration; convergence is claimed exactly when that value is below the threshold, and then the iteration named is the first one whose value is below the threshold |
| Convergence.ConvergenceWidget.FirstBelow | app/ui/widgets/convergence_widget.py:158-162 | Scanning the iterations in ascending order finds the first one below the threshold, and no earlier iteration is below it |
| Convergence.ConvergenceWidget.PlotTop | app/ui/widgets/convergence_widget.py:175-229 | No values means an empty plot. Otherwise the y range is taken from the largest plotted value |
| Convergence.ConvergenceWidget.ClearData | app/ui/widgets/convergence_widget.py:244-248 | `clear_data` forgets every value and keeps the threshold |
| Convergence.ConvergenceWidget.SetEpsilon | app/ui/widgets/convergence_widget.py:260-269 | `set_epsilon` changes only the threshold |
| Convergence.LargestMagnitude | app/ui/widgets/convergence_widget.py:127-137 | The inner loop finds the largest absolute slope of one iteration, or nothing when every slope is None |
| Convergence.LargestKey | app/ui/widgets/convergence_widget.py:149 | `max` over the iteration numbers picks a listed iteration no smaller than any other |
| Convergence.WidgetConvergedImpliesStop | app/ui/widgets/convergence_widget.py:130-138 | When every slope magnitude of a round is below the threshold, the estimator's stop test also holds for that round |
| Convergence.EstimatorStopsWhereWidgetDoesNot | app/ui/widgets/convergence_widget.py:130-138 | The converse fails: with slopes -0.5 and 0.01 and threshold 0.05 the estimator stops, while the tab shows 0.5 for that round |
| DataManagement.SequenceInfoUpdates | app/ui/managers/data_manager.py:142-195 | Storing sequence info always replaces the point count and dye list; a missing or empty dye list becomes `[]`. Smoothing, baseline and algorithm are replaced exactly when given, so a call that gives none keeps the recorded ones. The matrix difference is never touched, and storing twice with the same arguments is the same as storing once |
| DataManagement.DataManager.constructor | app/ui/managers/data_manager.py:16-46 | A new manager has no current clean file and all five dictionaries empty |
| DataManagement.DataManager.LoadOriginalMatrix | app/ui/managers/data_manager.py:71-117 | An original matrix is loaded only for a key that has none yet and a registered file whose read succeeds and whose columns can be normalised. It is stored column-normalised, so each of its columns sums to one. Every other dictionary is unchanged |
| DataManagement.DataManager.StoreCrosstalkMatrix | app/ui/managers/data_manager.py:48-69 | The matrix is stored under the file's key. Only a `.srd` file whose key has no original yet can gain an original, and that original has columns summing to one. Existing originals and the other dictionaries are kept |
| DataManagement.DataManager.StoreCrosstalkMatrixForAlgorithm | app/ui/managers/data_manager.py:119-140 | The matrix is stored under (key, algorithm) and the other algorithms of the key are kept. Originals change only for `.srd` files and are never overwritten |
| DataManagement.DataManager.StoreSequenceInfo | app/ui/managers/data_manager.py:142-195 | The key's entry, or an empty one, is updated as the sequence-info rule says; nothing else changes |
| DataManagement.DataManager.StoreSequenceInfoForAlgorithm | app/ui/managers/data_manager.py:197-237 | The (key, algorithm) entry exists afterwards with that algorithm and point count, updated as the sequence-info rule says; other entries are unchanged |
| DataManagement.DataManager.StoreMatrixDifference | app/ui/managers/data_manager.py:239-263 | The key's entry records the mean absolute difference of the two matrices, which is non-negative and zero exactly when they are equal; its other fields are kept |
| DataManagement.DataManager.StoreMatrixDifferenceForAlgorithm | app/ui/managers/data_manager.py:265-292 | The same, for the (key, algorithm) entry |
| DataManagement.DataManager.RemoveDataForFile | app/ui/managers/data_manager.py:433-462 | `remove_data_for_file` removes the key from all five dictionaries and touches no other key |
| DataManagement.StoreThenGet | app/ui/managers/data_manager.py:394-418 | What is stored for a file is found again under every name with the same key, whatever the extension, and a loaded original has columns summing to one |
| DataManagement.RemoveThenGet | app/ui/managers/data_manager.py:394-462 | After removal every getter returns None for a file with that key and answers as before for other files |
| DataProcessing.UnprocessedMembers | app/ui/processing/data_processing.py:634-645 | The batch queue holds exactly the selected files that are not processed yet, and never more files than were selected |
| DataProcessing.UnprocessedKeepsOrder | app/ui/processing/data_processing.py:634-645 | Filtering keeps the selection order: the queue of two selections one after the other is the two queues one after the other |
| DataProcessing.DualCleanNames | app/ui/processing/data_processing.py:892-894 | A result name `<base>_clean_<k>.csv` is a CSV name whose base name is `<base>`, and different k give different names |
| DataProcessing.SaveExtIsCsv | app/ui/processing/data_processing.py:844-893 | Whatever the original file, a result of a run with several algorithms is saved with the extension ".csv" |
| DataProcessing.PutResult | app/ui/processing/data_processing.py:178-188 | Storing a result under an algorithm's name adds at most one entry, and the list then holds that name with that result |
| DataProcessing.PutResultNew | app/ui/processing/data_processing.py:183-187 | A result for an algorithm not stored yet goes last, after the earlier ones |
| DataProcessing.PutResultExisting | app/ui/processing/data_processing.py:183-187 | A result for an algorithm already stored replaces the old result in place, keeping its position |
| DataProcessing.FinalFilesAppend | app/ui/processing/data_processing.py:880-930 | The finalising loop visits the stored results in order: one more stored result gives one more finalised file at the end |
| DataProcessing.FinalFileNamed | app/ui/processing/data_processing.py:880-930 | The k-th finalised result is named `<base>_clean_<k+1>.csv`, leads back to the base name, carries that algorithm's result, and has a saved path exactly when data is saved |
| DataProcessing.FinalFilePath | app/ui/processing/data_processing.py:899-911 | A saved result lies at `processed_sequences/<base>_seq/<name>` |
| DataProcessing.FinalFilesDistinct | app/ui/processing/data_processing.py:880-930 | The finalised results have pairwise different names |
| PyCore.Listed | app/ui/processing/data_processing.py:921-929 | Adding names to a list widget, each only when it is not shown yet, keeps what it showed, in place and in order, shows exactly the old names and the new ones, and keeps the list free of duplicates (the same step ends refresh_file_list, app/ui/operations/file_operations.py:318-326) |
| DataProcessing.ListedStep | app/ui/processing/data_processing.py:921-929 | One more result adds its name at the end exactly when the list does not show it yet |
| DataProcessing.NameResults | app/ui/processing/data_processing.py:880-930 | The naming loop gives exactly the finalised files of the stored results. The file list is unchanged in statistics-only mode and otherwise gains their names |
| DataProcessing.DataProcessingManager.constructor | app/ui/processing/data_processing.py:18-43 | A new manager has no thread, no current file, no batch, no algorithms and no stored results |
| DataProcessing.DataProcessingManager.StartProcessing | app/ui/processing/data_processing.py:45-88 | `start_processing` does nothing while the held thread still runs. Otherwise it starts one thread with the given file and settings and makes that file current; the batch and the algorithm list are untouched |
| DataProcessing.DataProcessingManager.CancelProcessing | app/ui/processing/data_processing.py:90-105 | Cancelling asks a running thread to stop and drops a pending batch. Without a running thread nothing changes |
| DataProcessing.DataProcessingManager.FinishQueue | app/ui/processing/data_processing.py:728-754 | Finishing reports how many files the batch had and whether statistics are saved, then empties the batch |
| DataProcessing.DataProcessingManager.ProcessNextInQueue | app/ui/processing/data_processing.py:679-726 | With no file waiting the batch finishes. Without options the step raises TypeError, and with an empty algorithm list it raises IndexError. Otherwise the next file is started with the first algorithm and the queue index advances |
| DataProcessing.DataProcessingManager.ContinueQueue | app/ui/processing/data_processing.py:449-457 | After a file is done, a pending batch goes on with its next file and a finished batch is cleared |
| DataProcessing.DataProcessingManager.ProcessFile | app/ui/processing/data_processing.py:498-619 | Nothing starts for an already processed file, while a thread runs, or when the options dialog is cancelled. Otherwise the algorithm list is reset to the chosen one and the first algorithm is started on that file, with IndexError for an empty list. The batch is untouched |
| DataProcessing.DataProcessingManager.ProcessSelectedFiles | app/ui/processing/data_processing.py:621-677 | Nothing happens for an empty selection or while a thread runs. A selection with nothing left to process, or a cancelled batch dialog, leaves an empty queue. Otherwise the batch flags are taken from the dialog; with options the queue is the unprocessed files in selection order and its first file is started |
| DataProcessing.DataProcessingManager.ProcessNextAlgorithm | app/ui/processing/data_processing.py:756-794 | The same file is started again with the next algorithm and the previous thread's settings. Without a thread it raises AttributeError; past the end of the list it raises IndexError. The current file, the batch and the stored results never change |
| DataProcessing.DataProcessingManager.FinalizeDual | app/ui/processing/data_processing.py:796-1051 | Without a current file nothing changes and no file is produced. Otherwise it does what FinalizeCurrent states |
| DataProcessing.DataProcessingManager.FinalizeCurrent | app/ui/processing/data_processing.py:796-1051 | With a current file, every stored result becomes a finalised file named after the base name. They are saved only outside statistics-only mode when the thread saves data, and listed only outside statistics-only mode, each name once. Then the batch goes on, and once no batch is pending the stored results and the algorithm list are cleared |
| DataProcessing.DataProcessingManager.OnProcessingFinished | app/ui/processing/data_processing.py:159-457 | In a run with several algorithms the result is stored under the thread's algorithm. If another algorithm follows, it starts on the same file with the finished thread's settings: AttributeError without a thread, the current file and the algorithm list unchanged. After the last algorithm the stored results are finalised: the files named after the base name, the shown list extended by their names outside statistics-only mode, the batch continued, and the per-file algorithm state cleared when no batch file is left. Without a current file nothing is finalised. A run with one algorithm goes straight on with the batch |
| DataProcessing.DataProcessingManager.OnProcessingError | app/ui/processing/data_processing.py:459-496 | After an error a batch goes on with its next file; outside a batch the thread is dropped and the batch flags are reset to "save data, no statistics" |
| DataProcessing.ExportedRowsMembers | app/ui/processing/data_processing.py:1095-1130 | A row is exported for a base name exactly when its entry records some processing field. Each row is that entry formatted, with "—" exactly for a field not recorded, and there are no more rows than entries |
| DataProcessing.SaveBatchStatistics | app/ui/processing/data_processing.py:1053-1162 | The statistics go to `statistics/statistics_<count>_<stamp>.csv`. The rows are those of the processed entries in sorted key order, and the count reported is the number of rows |
| Dialogs.AskTestDataParams | app/ui/dialogs.py:20-44 | `ask_test_data_params` gives an answer exactly when none of the four prompts is cancelled. The counts lie in 1..2147483647 and the noise in 0.001..1, and counts inside their ranges are passed on unchanged |
| Dialogs.ProcessingOptionsDialog.constructor | app/ui/dialogs.py:50-105 | A new dialog has both boxes checked, window 21 and order 3. It is open, and its stored settings are ones the smoothing accepts |
| Dialogs.ProcessingOptionsDialog.EnsureOddWindowSize | app/ui/dialogs.py:170-176 | An even window is moved up by one and an odd one is left alone, so the window box always shows an odd value; nothing else changes |
| Dialogs.ProcessingOptionsDialog.EditWindowSpin | app/ui/dialogs.py:92-99 | Setting the window box clamps the value to 3..101, and the odd-size correction then keeps it odd (at most one above the clamped value); nothing else changes |
| Dialogs.ProcessingOptionsDialog.EditPolySpin | app/ui/dialogs.py:104-105 | Setting the order box clamps the value to 1..10; nothing else changes |
| Dialogs.ProcessingOptionsDialog.Accept | app/ui/dialogs.py:135-168 | OK first stores both check boxes. It closes the dialog exactly when smoothing is off, or when the window is odd and the order is below it. Only a smoothing accept stores the window and order; a refused OK leaves the dialog open |
| Dialogs.ProcessingOptionsDialog.Reject | app/ui/dialogs.py:126-127 | Cancel closes the dialog as rejected and changes nothing else |
| Dialogs.AskProcessingOptions | app/ui/dialogs.py:179-196 | `exec()` runs a fresh dialog through the user's actions until it closes; the result is the four stored values when it closed by an accepted OK and `None` otherwise. It is given only after OK was pressed, and it always holds an odd window in 3..101 and an order in 1..10 below it; with smoothing off these are the defaults 21 and 3 |
| Dialogs.Outcome | app/ui/dialogs.py:190-196 | The answer is `Some` exactly when the dialog was accepted, and then holds its four stored values |
| Dialogs.OkAtOnceGivesDefaults | app/ui/dialogs.py:50-196 | OK on the untouched dialog answers smoothing and baseline correction on, window 21 and order 3, whatever actions follow |
| Dialogs.OrderAboveWindowRefused | app/ui/dialogs.py:135-168 | With window 3 and order 5, OK keeps the dialog open and a later Cancel answers `None`; the same boxes with smoothing off are accepted with the stored defaults |
| Dialogs.NoOkGivesNone | app/ui/dialogs.py:179-196 | Without an OK among the remaining actions the dialog is never accepted, so the answer is `None` |
| Estimation.Pairs | app/utils/seq_utils.py:95-100 | A round visits 12 pairs (i, j) of channels 0..3 with i different from j |
| Estimation.SlotBijection | app/utils/seq_utils.py:107-110 | The progress slot `i*3 + (j if j < i else j-1)` numbers the visited pairs 0..11 in visiting order, one to one |
| Estimation.PairsAreAllOrderedPairs | app/utils/seq_utils.py:95-100 | The pairs of a round are exactly the ordered pairs of distinct channels |
| Estimation.PairsDistinct | app/utils/seq_utils.py:95-100 | No pair is visited twice in a round |
| Estimation.PairsInLexOrder | app/utils/seq_utils.py:95-100 | The pairs are visited in lexicographic order |
| Estimation.Band | app/utils/seq_utils.py:118-124 | The selected samples are those whose channel-i value lies between the two quantiles, with no other samples; every sample in the band is kept |
| Estimation.ChunkTiling | app/utils/seq_utils.py:127-128 | `np.array_split` cuts the band into consecutive, non-empty sections that cover it, the first n % bins of them one longer |
| Estimation.ArgMinY | app/utils/seq_utils.py:133 | `idxmin` picks the first sample with the smallest channel-j value |
| Estimation.ChunkMinima | app/utils/seq_utils.py:129-134 | One sample is selected from each section |
| Estimation.ChunkMinimaAreSectionMinima | app/utils/seq_utils.py:129-134 | Each selected sample lies in its own section and no sample of that section is lower |
| Estimation.FitPair | app/utils/seq_utils.py:118-144 | A fitted pair belongs to channels (i, j), is fitted on the two full columns, and needs at least eight samples. With both columns present, a failure is the ValueError of a split into zero sections |
| Estimation.FitPairs | app/utils/seq_utils.py:95-144 | A round that completes has one fit per visited pair |
| Estimation.FitPairsEntries | app/utils/seq_utils.py:95-144 | The k-th fit of a round is the fit of the k-th visited pair |
| Estimation.MaxOf | app/utils/seq_utils.py:161 | `max(slopes)` is one of the slopes and no slope exceeds it |
| Estimation.StopTest | app/utils/seq_utils.py:161 | The stop test raises ValueError exactly for an empty slope list. When it holds, every slope is below the threshold and the largest lies strictly within it |
| Estimation.PlaceSlopesEntries | app/utils/seq_utils.py:143 | `W_estim[j, i] = slope` sets only the entry at row j and column i of each fitted pair; the diagonal keeps its value |
| Estimation.RoundMatrixEntries | app/utils/seq_utils.py:85-143 | A round's matrix has a unit diagonal and holds each fitted slope at row j, column i |
| Estimation.Unmix | app/utils/seq_utils.py:166-167 | Unmixing keeps the column labels and the number of samples, and a singular matrix raises LinAlgError |
| Estimation.RoundStep | app/utils/seq_utils.py:83-169 | One pass of the loop records a complete round with the current number. A stopped round folds nothing in; otherwise W becomes W times the round's matrix and the unmixed data keep their shape |
| Estimation.RunEnds | app/utils/seq_utils.py:83 | Once `iteration` reaches `iter`, no further round runs and the run did not converge |
| Estimation.Run | app/utils/seq_utils.py:79-169 | The `while iteration < iter` loop as a trace of rounds: an error in a round ends it, the stop test ends it converged, otherwise W grows by the round matrix; its properties are `RunEnds`, `RunAfterStep`, `RunKeepsDone`, `RunCount`, `RunNumbers`, `RunRounds` and `RunProduct` |
| Estimation.RunAfterStep | app/utils/seq_utils.py:83-169 | The run is its first round followed by the rest: an error ends it, a stop ends it converged, and otherwise it goes on with the next number, the unmixed data and the updated W |
| Estimation.FitRoundAligned | app/utils/seq_utils.py:95-144 | A completed round fitted the 12 pairs in visiting order |
| Estimation.RunKeepsDone | app/utils/seq_utils.py:83-169 | Rounds already run stay in front of the trace |
| Estimation.RunCount | app/utils/seq_utils.py:79-168 | At most `iter - iteration` rounds run. A run that did not converge used them all; a converged one ran at least one |
| Estimation.RunNumbers | app/utils/seq_utils.py:70-168 | Rounds are numbered consecutively from 1 |
| Estimation.RunRounds | app/utils/seq_utils.py:83-169 | Every round of a run fitted all 12 pairs in order and holds the matrix its fits determine; only the last round of a converged run met the stop test |
| Estimation.RunProduct | app/utils/seq_utils.py:67-169 | The final W is the product, in order, of the matrices of every round that did not stop the loop |
| Estimation.EstimateColumnsSumToOne | app/utils/seq_utils.py:177-183 | A successful estimate has every column summing to one |
| Estimation.Estimate | app/utils/seq_utils.py:67-183 | `estimate_crosstalk`: the rounds from the identity, then W normalised by its column sums; every column of a result sums to one (`EstimateColumnsSumToOne`), with `iter <= 1` it is the identity (`EstimateWithoutRounds`), fewer than eight samples always fail (`EstimateNeedsEightSamples`) |
| Estimation.EstimateWithoutRounds | app/utils/seq_utils.py:67-83 | With `iter <= 1` no round runs and the estimate is the identity matrix |
| Estimation.EstimateNeedsEightSamples | app/utils/seq_utils.py:127-128 | Data with fewer than eight samples can never be estimated: the first pair already asks for zero sections |
| FileOperations.LastWithRole | app/ui/operations/file_operations.py:53-60 | Finds the position of the last listed data file of the given role (clean or main); none exactly when no listed name has that role |
| FileOperations.LastBelow | app/ui/operations/file_operations.py:53-60 | Among the first n names: none exactly when none of them has the role, otherwise the last of them that has it |
| FileOperations.Pick | app/ui/operations/file_operations.py:53-60 | The file a folder scan keeps for a role is a listed data file of that role, and no later listed name has the role |
| FileOperations.Classify | app/ui/operations/file_operations.py:53-60 | One pass over a folder's names keeps the last main data file and the last clean data file |
| FileOperations.ClassifyStep | app/ui/operations/file_operations.py:53-60 | One pass of the loop body keeps, for the names seen so far, the last main data file and the last clean data file |
| FileOperations.NotCleanIsPlain | app/ui/operations/file_operations.py:56-59 | A name whose lower-cased form holds no "_clean" holds no "_clean" either |
| FileOperations.ScanFolderEffect | app/ui/operations/file_operations.py:43-77 | One folder forgets no registered name and re-points no registered name that is not a clean copy. It lists at most one name: a main file that was not registered before and is afterwards |
| FileOperations.ScanProperties | app/ui/operations/file_operations.py:43-77 | The whole scan never forgets a registered name and never re-points one that is not a clean copy. The names it lists are distinct main files that were not registered before and are afterwards |
| FileOperations.ScanListsPlainNames | app/ui/operations/file_operations.py:43-77 | The names the scan lists hold no "_clean" in any letter case |
| FileOperations.Unmarked | app/ui/operations/file_operations.py:306-310 | The kept names are exactly those holding no "_clean", never more than the input |
| FileOperations.UnmarkedAppend | app/ui/operations/file_operations.py:306-310 | Keeping the unmarked names commutes with concatenation, so the kept names stay in their relative order |
| FileOperations.PathsOf | app/ui/operations/file_operations.py:81-90 | The preload paths are the registered paths of the listed names, in order; the first unregistered name raises KeyError |
| FileOperations.DestPathShape | app/ui/operations/file_operations.py:112-118 | Every opened file goes to `processed_sequences/<stem>_seq/<name>`, and the last component of that path is the file's name again |
| FileOperations.BaseNames | app/ui/operations/file_operations.py:111 | One name per chosen file, the last component of its path, in order |
| FileOperations.OpenedKeys | app/ui/operations/file_operations.py:106-120 | After opening, the registered names are the old ones plus the chosen ones |
| FileOperations.OpenedRegisters | app/ui/operations/file_operations.py:106-120 | Every chosen name is registered at its destination path, and every other name keeps its path |
| FileOperations.TestDataNamesDistinct | app/ui/operations/file_operations.py:140 | Generated file names never repeat: different counters give different names |
| FileOperations.TestDataNameIsPlain | app/ui/operations/file_operations.py:140 | A generated name holds no "_clean", so the file list shows it |
| FileOperations.TestDataBaseName | app/ui/operations/file_operations.py:140 | A generated name has the base name `TestData_<counter>` |
| FileOperations.PromptedParamsGenerate | app/ui/operations/file_operations.py:126-135 | Any answers the prompts let through (counts of at least 1, positive noise) with width 1.3 and height 1000 make the generator succeed with `n * peak_space * detail` rows |
| FileOperations.ScanFolders | app/ui/operations/file_operations.py:43-77 | The folder loop registers what the scan says and returns the main files it lists, in order |
| FileOperations.CollectPaths | app/ui/operations/file_operations.py:81-90 | The preload step collects the registered path of every listed name in list order, or raises KeyError at the first unregistered one |
| FileOperations.PlainNames | app/ui/operations/file_operations.py:306-310 | The first loop of `refresh_file_list` yields `Unmarked` of the keys: exactly the names holding no "_clean", in the keys' order |
| FileOperations.AppendUnlisted | app/ui/operations/file_operations.py:318-326 | The list afterwards is exactly `Listed(shown, names)`: each remembered name not shown yet is appended in turn, so the list keeps what it showed, gains every name and gains no name twice |
| FileOperations.DropRegistered | app/ui/operations/file_operations.py:207-210 | Each registered candidate is removed from both of the registry's dictionaries, and every other name is kept |
| FileOperations.FileOperationsManager.constructor | app/ui/operations/file_operations.py:21-29 | A new manager shows the given list, and the counter of generated files starts at 1 |
| FileOperations.FileOperationsManager.LoadProcessedFiles | app/ui/operations/file_operations.py:31-90 | With no processed directory nothing happens. Otherwise every folder is scanned and registered, its listed main files are appended, and the paths of the listed names are collected for the preload |
| FileOperations.FileOperationsManager.RefreshFileList | app/ui/operations/file_operations.py:303-326 | The new list is the scanned main files first, in scan order (none when the directory is missing), followed by each remembered name without "_clean", in registry order, that is not listed yet; so it holds no name twice, only registered names, no name holding "_clean", and every such name registered before; the registry is as the scan leaves it |
| FileOperations.FileOperationsManager.OpenFileDialog | app/ui/operations/file_operations.py:92-120 | Each chosen file is registered under the last component of its path at its destination and appended to the list |
| FileOperations.FileOperationsManager.GenerateTestData | app/ui/operations/file_operations.py:122-165 | A cancelled prompt changes nothing. A generator error is returned and changes nothing. Otherwise, exactly when the generator succeeds, a new frame holding the generated trace is registered under `TestData_<counter>.csv` with its path, every other name keeps its frame, the name is listed, and the counter moves on by one |
| FileOperations.FileOperationsManager.DeleteFile | app/ui/operations/file_operations.py:167-210 | The item leaves the list. The registry forgets the name and the clean copies of its `splitext` stem in both dictionaries, and nothing else |
| FileOperations.FileOperationsManager.ContextMenu | app/ui/operations/file_operations.py:225-265 | No menu off an item. With several items selected, the two batch entries. Otherwise run, then the removal of processed data exactly when a clean copy of the item's base name is registered, then delete |
| FileOperations.FileOperationsManager.CheckHasCleanData | app/ui/operations/file_operations.py:267-285 | With the base name of `_get_base_name` (the part before "_clean", else before the first "."), true exactly when `<base>_clean.csv` or `<base>_clean.srd` is registered |
| FileOperations.DeletionAndMenuUseDifferentStems | app/ui/operations/file_operations.py:172 | Deleting "run.1.csv" drops the clean copies of "run.1", while its menu checks the clean copies of "run" |
| GenerateUtils.GrowKeepsPeak | app/utils/generate_utils.py:64-67 | One pass keeps the peak shape: each new end lies below the smaller old end, so the list still falls away from its middle |
| GenerateUtils.GrownPeaked | app/utils/generate_utils.py:63-67 | After every pass the list is 1 at its middle, falls away from it on both sides and stays within [0, 1] |
| GenerateUtils.CrossTalkColumn | app/utils/generate_utils.py:62-68 | `getCrossTalkColumn` returns seven values that peak at 1 in the middle and fall towards both ends |
| GenerateUtils.CrossTalkShape | app/utils/generate_utils.py:54-59 | The generated matrix has a unit diagonal and entries in [0, 1], and down each column the entries never increase moving away from the diagonal |
| GenerateUtils.CrossTalk | app/utils/generate_utils.py:54-59 | `getCrossTalk` builds the matrix from four fresh columns, row i taking the window `col[3-i:7-i]`, and returns its transpose |
| GenerateUtils.PeakSymmetric | app/utils/generate_utils.py:50-51 | A peak has the same height at equal distances on both sides of its centre |
| GenerateUtils.CentresInSlots | app/utils/generate_utils.py:25 | With positive spacing and detail, peak i lies inside its own slot of `detail` samples starting at `i * peak_space * detail`, and peak centres increase with i |
| GenerateUtils.Zeros | app/utils/generate_utils.py:20-21 | The starting frame has the four labelled channels, one row per time point, all zero |
| GenerateUtils.PeaksCell | app/utils/generate_utils.py:23-27 | Each channel of the noiseless trace is, at every time point, the sum of the peaks drawn for that base |
| GenerateUtils.Noised | app/utils/generate_utils.py:33-34 | Adding noise to the first channels changes exactly those channels, each sample by its own noise draw |
| GenerateUtils.NoisedStep | app/utils/generate_utils.py:33-34 | Adding one more channel's noise moves the noisy prefix on by that channel |
| GenerateUtils.TestData | app/utils/generate_utils.py:7-36 | `getTestData` fails exactly for a negative n, for a non-positive detail with peaks to place, for a negative noise scale, or for a zero peak width with a non-empty trace. Otherwise it returns the labelled trace of `peak_space * n * detail` samples and the generated matrix |
| GenerateUtils.AddPeaks | app/utils/generate_utils.py:23-27 | The peak loop raises ValueError exactly when there are peaks to place and a non-positive detail. Otherwise the frame keeps its labels and length, and with a non-zero width it holds the drawn peaks |
| GenerateUtils.AddNoise | app/utils/generate_utils.py:33-34 | Noise is added to all four channels; a negative scale raises ValueError |
| GenerateUtils.GetTestData | app/utils/generate_utils.py:7-36 | The step-by-step generator computes exactly what the rule above describes |
| GenerateUtils.NoiseThenMix | app/utils/generate_utils.py:29-34 | Mixing is linear: noise added before mixing is the same as the mixed noise added after it |
| GenerateUtils.Perturbed | app/utils/generate_utils.py:43-46 | The block's matrix keeps M's diagonal and scales each off-diagonal entry by its deviation draw |
| GenerateUtils.AppliedCrossTalk | app/utils/generate_utils.py:39-47 | `applyCrossTalk` keeps the labels and the number of samples whenever it succeeds |
| GenerateUtils.MixBlock | app/utils/generate_utils.py:45-46 | The inner loop mixes the `width` samples of one block. It fails with ValueError for samples that are not four-vectors, and with KeyError when the last block is short |
| GenerateUtils.ApplyCrossTalk | app/utils/generate_utils.py:39-47 | The block loop computes `applyCrossTalk` as defined, error cases included |
| GenerateUtils.BlockIndicesInRange | app/utils/generate_utils.py:42-43 | When the length is a whole number of blocks, every sample's block has its own deviation draw |
| GenerateUtils.UnitDeviationIsPlainMixing | app/utils/generate_utils.py:39-47 | With every deviation draw equal to 1 the result is the plain product of M with the data |
| IterationManagement.FindKey | app/ui/managers/iteration_manager.py:210-214 | The lookup finds a stored key equal to the name or sharing its base name, if there is one, and reports none exactly when no stored key qualifies |
| IterationManagement.FindKeyAt | app/ui/managers/iteration_manager.py:210-214 | The key found is the first qualifying key in insertion order |
| IterationManagement.Matching | app/ui/managers/iteration_manager.py:109-115 | Clearing a name removes exactly the stored keys equal to it, sharing its base name, or having the name itself as base name |
| IterationManagement.RemoveAll | app/ui/managers/iteration_manager.py:118-119 | Popping the collected keys removes exactly them and leaves every other entry as it was |
| IterationManagement.LoadOutcomeAgrees | app/ui/managers/iteration_manager.py:267-325 | A load yields iterations only for a name that `_check_iteration_file_exists` accepts: its iterations file is present and it was not cleared by hand. A name cleared by hand, or whose base name was, never loads anything |
| IterationManagement.ShowRaisesForUnregisteredBase | app/ui/managers/iteration_manager.py:218-222 | As written, showing `a.csv` (registered, with no iterations anywhere) raises KeyError, because the fallback looks up the unregistered base name `a` in the registry |
| IterationManagement.GuardedShowAgrees | app/ui/managers/iteration_manager.py:193-240 | With the lookup guarded by the registry, iterations in memory are always found first. Anything else shown has its iterations file on disk, and a file cleared by hand comes back only from memory. Wherever the written lookup answers, the two agree |
| IterationManagement.IterationManager.constructor | app/ui/managers/iteration_manager.py:14-28 | A new manager holds no iterations, shows no file and has cleared nothing |
| IterationManagement.IterationManager.StoreIterationData | app/ui/managers/iteration_manager.py:30-59 | The iteration is stored under its number in the file's entry, which is created last in order when missing; the shown file and the cleared set are unchanged |
| IterationManagement.IterationManager.FinalizeIterationResults | app/ui/managers/iteration_manager.py:61-93 | For a file without iterations nothing happens. Otherwise the file is no longer counted as cleared by hand, and an unregistered file raises KeyError. A registered one has its iterations saved next to its non-empty path and becomes the shown file |
| IterationManagement.IterationManager.KeysToRemove | app/ui/managers/iteration_manager.py:109-115 | The collecting loop gathers exactly the keys the name matches |
| IterationManagement.IterationManager.RemoveKeys | app/ui/managers/iteration_manager.py:118-122 | Each collected key is removed and counted as cleared by hand; a removed key stops being the shown file |
| IterationManagement.IterationManager.ClearIterationData | app/ui/managers/iteration_manager.py:95-170 | With no name everything is dropped and the tabs go. With a name, every matching key is removed and counted as cleared, together with the name. The tabs go exactly when nothing is left, and a removed shown file is replaced by the oldest remaining key |
| IterationManagement.IterationManager.HasIterationDataForFile | app/ui/managers/iteration_manager.py:172-191 | True when a stored key equals the name or shares its base name, or else when the name's iterations file exists and the name was not cleared by hand |
| IterationManagement.IterationManager.LoadFromDisk | app/ui/managers/iteration_manager.py:267-293 | A blocked name or an absent file loads nothing; an unregistered name raises KeyError. Iterations found on disk are stored under the name |
| IterationManagement.IterationManager.FindInMemory | app/ui/managers/iteration_manager.py:210-214 | The scan over the stored keys finds the first key the lookup accepts |
| IterationManagement.IterationManager.ShowIterationsForFile | app/ui/managers/iteration_manager.py:193-240 | As written: the first accepted key in memory, else the iterations loaded for the name, else for its base name. What is found becomes the shown file. A memory hit, a miss and an error leave the stored iterations as they were; a load from disk stores exactly the loaded iterations under the found key; the cleared names never change |
| IterationManagement.ClearedFileHasNoData | app/ui/managers/iteration_manager.py:95-191 | After a file is cleared by hand, `has_iteration_data_for_file` says no for it whatever the disk holds |
| IterationManagement.ClearReachesResults | app/ui/managers/iteration_manager.py:109-115 | Clearing any name with base name x also removes the results `x_clean_<k>.csv` of a run with several algorithms |
| IterationManagement.ClearStoreFinalize | app/ui/managers/iteration_manager.py:61-191 | A cleared file whose iterations are stored again and finalised is reported to have iterations again and becomes the shown file |
| IterationResults.PlotPairsAreTheUnorderedPairs | app/ui/operations/iteration_results.py:221-228 | The six panels show exactly the pairs i < j of the four channels, each once |
| IterationResults.MaxOf | app/ui/operations/iteration_results.py:172 | `max` over the iteration numbers picks a stored number no smaller than any other |
| IterationResults.InvertLineSwapsAxes | app/ui/operations/iteration_results.py:257-259 | For a non-zero slope, the inverted line passes through every point of the original line read with its axes swapped |
| IterationResults.InvertLine | app/ui/operations/iteration_results.py:257-262 | For a non-zero slope the result is `(1/k, -b/k)` stated as `k' * k == 1` and `b' * k == -b`; a zero slope leaves the line as `(0, b)` |
| IterationResults.InvertLineInvolution | app/ui/operations/iteration_results.py:257-262 | Inverting a line twice gives it back |
| IterationResults.PairView | app/ui/operations/iteration_results.py:242-266 | A panel has nothing to show exactly when neither the pair nor the reversed pair is stored. The lookup fails exactly for a stored pair without a "slope", or for a reversed pair whose slope is missing or None |
| IterationResults.PairViewAgrees | app/ui/operations/iteration_results.py:242-266 | A stored pair is shown as stored. A reversed pair is shown with its data and regression points swapped and its line inverted |
| IterationResults.Thin | app/ui/operations/iteration_results.py:472-493 | Up to the limit the points are kept as they are. Beyond it every `len(x) // limit`-th sample of both series is kept, and a shorter y raises IndexError |
| IterationResults.StrideCountBounds | app/ui/operations/iteration_results.py:490-491 | With `step = n // m` and n > m, between m and 2m indices are kept |
| IterationResults.ThinBounds | app/ui/operations/iteration_results.py:472-493 | Beyond the limit, thinning keeps between the limit and twice the limit of points |
| IterationResults.RegressionColorsDistinct | app/ui/operations/iteration_results.py:370-390 | Panels whose first channels differ get different regression colours |
| IterationResults.PanelsUpToSpec | app/ui/operations/iteration_results.py:230-350 | The slot loop produces one panel per slot, each as its slot's rule says |
| IterationResults.DisplayShowsFittedPairs | app/ui/operations/iteration_results.py:208-350 | When the current iteration is drawn there are six panels. Panel k shows data exactly when its pair or the reversed pair was fitted in that iteration, and it shows what the lookup finds |
| IterationResults.IterationResultsWidget.constructor | app/ui/operations/iteration_results.py:29-53 | A new tab has no iterations, current iteration 0 and maximum 0 |
| IterationResults.IterationResultsWidget.SetIterationData | app/ui/operations/iteration_results.py:163-176 | The data are replaced. The maximum is the largest iteration number (0 with no data) and the current iteration is 1 (0 with no data); the panels are redrawn |
| IterationResults.IterationResultsWidget.State | app/ui/operations/iteration_results.py:178-192 | "Previous" is enabled exactly when there are data and the current iteration is past 1; "next" exactly when there are data and it is below the maximum. The caption names the current and largest iteration, or says there are no data |
| IterationResults.IterationResultsWidget.Prev | app/ui/operations/iteration_results.py:194-199 | Moves back one iteration and redraws when past the first; otherwise nothing happens. The current iteration stays in range |
| IterationResults.IterationResultsWidget.Next | app/ui/operations/iteration_results.py:201-206 | Moves on one iteration and redraws when below the maximum; otherwise nothing happens. The current iteration stays in range |
| IterationResults.IterationResultsWidget.ClearData | app/ui/operations/iteration_results.py:450-459 | `clear_data` forgets the data and resets both counters to 0 |
| IterationResults.IterationResultsWidget.DisplayCurrent | app/ui/operations/iteration_results.py:208-350 | The slot loop draws the panels the display rule describes |
| IterationResults.PanelsUpToFails | app/ui/operations/iteration_results.py:230-350 | Once a slot raises, the drawing stops with that exception |
| LegacyPlotting.BaseHasNoMarker | app/ui/plotting.py:644-651 | A base name never holds "_clean", so the clean-name lookup's `replace("_clean", "")` on it changes nothing |
| LegacyPlotting.CleanCandidatesOfPlainName | app/ui/plotting.py:433-447 | For a plain data file `stem.e` the candidates are `stem_clean.e`, plus `stem_clean.csv` when the extension is ".srd" |
| LegacyPlotting.CandidatesShareBaseName | app/ui/plotting.py:433-447 | Every candidate is a clean name with the clicked file's base name, so the clean tab always shows a copy of the clicked file |
| LegacyPlotting.FindCleanCopy | app/ui/plotting.py:463-488 | The lookup finds nothing exactly when no candidate is registered; otherwise it finds the first registered candidate |
| LegacyPlotting.ExactClearKeepsCleanCopy | app/ui/plotting.py:562-580 | This clear pops only the exact name: iterations stored for `a_clean.csv` survive clearing `a.csv`, although the newer manager counts them as related |
| LegacyPlotting.PlottingManager.constructor | app/ui/plotting.py:28-50 | A new manager has the default limits, no manual or disabled mode, an empty cache, no clean tab and no iterations |
| LegacyPlotting.PlottingManager.PlotDataFrame | app/ui/plotting.py:123-207 | Plotting draws one curve per column of the frame as the renderer's rules pick and thin it, and remembers the factor used. An error changes nothing; no other state changes |
| LegacyPlotting.PlottingManager.CacheData | app/ui/plotting.py:213-221 | The frame is cached first-in-first-out under its path; nothing else changes |
| LegacyPlotting.PlottingManager.LoadDataEfficiently | app/ui/plotting.py:223-240 | A cached frame is returned without loading. Otherwise the frame is loaded and, when that succeeds, cached |
| LegacyPlotting.PlottingManager.RemoveCleanTab | app/ui/plotting.py:350-357 | The clean tab is closed and no clean file is remembered |
| LegacyPlotting.PlottingManager.UpdateCleanTab | app/ui/plotting.py:415-495 | A clean name never opens the clean tab. A plain name opens it, remembering its base name, exactly when a candidate is registered; the tab shows the first registered candidate |
| LegacyPlotting.PlottingManager.StoreIterationData | app/ui/plotting.py:516-539 | The iteration is stored under its number in the file's entry, and an open tab showing that file is handed the file's iterations again |
| LegacyPlotting.PlottingManager.FinalizeIterationResults | app/ui/plotting.py:541-560 | A file without iterations changes nothing, and an unregistered one raises KeyError. Otherwise its iterations are saved next to its path and the tab opens on them |
| LegacyPlotting.PlottingManager.ClearIterationData | app/ui/plotting.py:562-580 | With no name the store is emptied and the tab closed. With a name exactly that key is removed, and the tab closes when no current file is left |
| LegacyPlotting.PlottingManager.HasIterationDataForFile | app/ui/plotting.py:582-601 | True when a stored key equals the name or shares its base name, or else when an iterations file lies next to the name's registered path |
| LegacyUtils.LegacyEstimateCrosstalk | utils.py:34-88 | The older estimator fails with IndexError as soon as a round draws the pair figure of more than six column pairs. Otherwise it returns the current estimator's matrix and shows one figure per round |
| LegacyUtils.FewPairs | utils.py:44-45 | Up to four channels give at most six pairs, so the figure never fails on them |
| LegacyUtils.LegacyEstimateVersusEstimate | utils.py:34-88 | On data with up to four channels the older estimator returns exactly what the current one does; with five or more it fails once a round runs |
| LegacyUtils.LegacyDeleteCrossTalk | utils.py:190-198 | `deleteCrossTalk` returns a new frame: the baseline-corrected data (when asked) unmixed by the inverse of the given matrix, with the labels kept. Without `rem_base` the caller's frame is untouched; with it the caller's frame is baseline-corrected in place |
| LegacyUtils.LegacyTestData | utils.py:136-160 | The older generator fails exactly for a negative n, a non-positive detail with peaks to place, a negative noise scale, or a zero peak width with a non-empty trace; otherwise it returns the labelled trace of `peak_space * n * detail` samples and the generated matrix |
| LegacyUtils.LegacyGetTestData | utils.py:136-160 | The step-by-step older generator (peaks, then noise, then mixing) computes exactly that |
| LegacyUtils.LegacyNoiseIsMixed | utils.py:136-160 | The older generator is the current one at noise level 0.001 whose noise has also been passed through the mixing matrix |
| LoadUtils.LoaderOfJoined | app/utils/load_utils.py:6-12 | For a name `stem.e`, the SRD reader is chosen exactly when the extension is ".srd" in any letter case, and ".csv" chooses the CSV reader; the stem and directory do not matter |
| LoadUtils.LoaderFor | app/utils/load_utils.py:6-12 | The SRD reader for a lower-cased extension `.srd`, the CSV reader for `.csv` and for every other extension; `LoaderOfJoined` and `NoExtensionIsCsv` state it for `stem.e` and for a path without extension |
| LoadUtils.NoExtensionIsCsv | app/utils/load_utils.py:6-12 | A path without an extension goes to the CSV reader |
| LoadUtils.ToNumeric | app/utils/load_utils.py:47 | After coercion a cell is a number or missing |
| LoadUtils.Coerced | app/utils/load_utils.py:46-47 | Converting every column keeps the labels and the row count |
| LoadUtils.NumericCells | app/utils/load_utils.py:45-49 | Each resulting cell is the cell's number, the value of text that parses, or 0.0 for anything else |
| LoadUtils.NumericIdempotent | app/utils/load_utils.py:45-49 | Applying `make_numeric` to its own result changes nothing |
| LoadUtils.MakeNumeric | app/utils/load_utils.py:45-49 | `make_numeric` converts the caller's frame column by column in place and returns a new all-float frame with the missing values set to 0.0 |
| LoadUtils.CsvCells | app/utils/load_utils.py:32-39 | The CSV reader fails with ValueError exactly for an empty file or a first line with fewer than four fields. Otherwise it holds the first four fields of every line, labelled A, G, C, T |
| LoadUtils.LoadDataFromCsv | app/utils/load_utils.py:31-42 | `load_data_from_csv` fails exactly as the reader does; otherwise it gives one row per line holding the numeric values of the line's first four fields |
| LoadUtils.CsvIgnoresExtraFields | app/utils/load_utils.py:36 | Fields past the fourth never reach the frame |
| LoadUtils.IntRow | app/utils/load_utils.py:22 | A row of integers is read when every text is an integer; otherwise ValueError |
| LoadUtils.SrdRows | app/utils/load_utils.py:19-25 | The SRD reader keeps one four-value integer row per point with data, in document order, or fails with ValueError |
| LoadUtils.SrdSkipsPointWithoutData | app/utils/load_utils.py:20-21 | A point without data changes nothing |
| LoadUtils.SrdAppendsRow | app/utils/load_utils.py:22-25 | A point with four integer values adds exactly its row, at the end |
| LoadUtils.SrdErrorSticks | app/utils/load_utils.py:19-25 | Once a point fails, the whole file fails |
| LoadUtils.LoadDataFromSrd | app/utils/load_utils.py:15-28 | `load_data_from_srd` succeeds exactly when every point with data reads as four integers. It gives the frame A, G, C, T with one float row per such point, holding those integers |
| LoadUtils.LoadDataframeByPath | app/utils/load_utils.py:6-12 | The reader is chosen by the lower-cased extension (SRD for `.srd`, CSV otherwise). The call fails exactly when that reader fails; otherwise it returns that reader's frame: labels A, G, C, T, one row per line or per point with data, each value the reader's converted field |
| Matrix.MapRows | app/utils/generate_utils.py:30-31 | `(M @ data.T).T` with the labels put back succeeds exactly on four-column data, keeps the labels and row count, and maps each sample through M |
| Matrix.MapRowsIdentity | app/utils/generate_utils.py:30-31 | Mixing with the identity matrix changes nothing |
| Matrix.NormalizeColumns | app/utils/seq_utils.py:177 | `W / W.sum(axis=0)` is defined exactly when no column sums to zero, and then divides each entry by its column's sum |
| Matrix.NormalizedColumnsSumToOne | app/utils/seq_utils.py:177 | After normalising, every column sums to one |
| Matrix.NormalizeIdempotent | app/utils/seq_utils.py:177 | A matrix whose columns already sum to one is left as it is |
| Naming.BaseNameShape | app/ui/managers/iteration_manager.py:242-249 | A name starts with its base name. The base name of a name holding "_clean" holds no "_clean", and the dot key holds no dot |
| Naming.DotKey | app/ui/managers/data_manager.py:58 | `split(".")[0]`: a prefix of the name that is the whole name or is followed by the first dot, with no dot inside it |
| Naming.BaseName | app/ui/managers/iteration_manager.py:242-249 | A prefix of the name; when `_clean` occurs it is followed by `_clean` (text before its first occurrence), otherwise it is the text before the first dot |
| Naming.DotKeyOfNamed | app/ui/managers/data_manager.py:58 | `stem.ext` is stored under the key `stem` when the stem holds no dot, whatever the extension |
| Naming.BaseNameOfCleanName | app/ui/managers/iteration_manager.py:244-245 | Any name made from a base by appending "_clean" and anything after it has that base name again |
| Naming.BaseNameOfPlainName | app/ui/managers/iteration_manager.py:246-248 | A plain data file `stem.ext` has the base name `stem` |
| CoreProcessing.SequenceFolderOfFile | app/core/processing.py:11-15 | A file `stem.e` in any directory gets the folder `processed_sequences/<stem>_seq`; neither the directory nor the extension matters |
| CoreProcessing.SequenceFolder | app/core/processing.py:11-15 | `get_sequence_folder`: the folder `<base>/<stem>_seq` for the file's base name without extension; `SequenceFolderOfFile` and `FolderOfStem` state it for `dir/stem.e` |
| CoreProcessing.StemOfFileInDir | app/core/processing.py:13 | The stem of the base name of `dir/stem.e` is `stem`, whatever the directory |
| CoreProcessing.FolderOfStem | app/core/processing.py:11-15 | A file with stem `s` gets the folder `processed_sequences/<s>_seq` |
| CoreProcessing.CandidatePaths | app/core/processing.py:24-35 | The processed-file check looks at two paths, each the sequence folder joined with one of the clean names |
| CoreProcessing.FirstExisting | app/core/processing.py:34-39 | The first existing candidate is found; none exactly when no candidate exists |
| CoreProcessing.FirstExistingAt | app/core/processing.py:34-37 | When the earlier candidates are missing and candidate k exists, candidate k is the answer |
| CoreProcessing.IsFileAlreadyProcessed | app/core/processing.py:18-39 | `is_file_already_processed` reports true with the first existing candidate path, and false with no path exactly when no candidate exists |
| CoreProcessing.CleanFileIsCandidate | app/core/processing.py:71-74 | The file `process_and_save` writes is one `is_file_already_processed` looks for: the first candidate for most files, the second (".csv") for `.srd` in any letter case |
| CoreProcessing.SavedFileIsDetected | app/core/processing.py:18-78 | Once the clean file exists, the file is reported as processed |
| CoreProcessing.Disk.MakeDirsIfMissing | app/core/processing.py:50-51 | Afterwards the directory exists; it is added only when it was missing, and the files are untouched |
| CoreProcessing.Disk.Write | app/core/processing.py:76 | Writing replaces exactly that path's contents |
| CoreProcessing.Processed | app/core/processing.py:53-60 | Processing keeps the labels and the number of samples |
| CoreProcessing.ProcessedWithoutSmoothing | app/core/processing.py:53-60 | Without smoothing, correcting the baseline first and then unmixing is the same as `deleteCrossTalk` with `rem_base` set as asked |
| CoreProcessing.ProcessCopy | app/core/processing.py:53-60 | The processing works on a copy and returns a new frame with the processed data |
| CoreProcessing.SaveClean | app/core/processing.py:62-78 | The clean frame is written to `<folder>/<stem>_clean<ext>` (".csv" for `.srd`) and the folder exists afterwards. The original is copied into the folder only when the folder was new, and nothing else changes |
| CoreProcessing.ProcessAndSave | app/core/processing.py:42-78 | The base directory exists afterwards. On success the processed frame is new, is written at the clean path in the existing sequence folder, and that path is returned. A processing failure leaves the files as they were |
| CoreProcessing.DeleteProcessedSequence | app/core/processing.py:81-102 | True exactly when the folder existed and its removal did not fail; then the folder and everything under it are gone and every other file is kept. Otherwise nothing changes |
| ProcessorApi.Algorithms | app/api/processor.py:77-87 | The algorithm list exists exactly for -1, 1 and 2. It holds one or two distinct numbers from {1, 2}, including the one asked for; any other value raises ValueError |
| ProcessorApi.Step | app/api/processor.py:36-62 | One pass of the algorithm loop adds exactly one record and keeps the earlier ones. Algorithms 1 and 2 add one cleaned frame and fail when the cleaner fails; another number reuses the previous matrix and fails with NameError when there is none |
| ProcessorApi.Applied | app/api/processor.py:36-62 | After k passes without an exception there are k records and at most k cleaned frames |
| ProcessorApi.AppliedShape | app/api/processor.py:36-62 | Each record names the sequence, its algorithm and its dye names, and has a matrix difference exactly when the sequence has a reference matrix. When every number is 1 or 2 there is one cleaned frame per algorithm |
| ProcessorApi.SavedFiles | app/api/processor.py:63-69 | When saving, the i-th cleaned frame is written to `<save_path>/<name>_<algorithms[i]>.csv` |
| ProcessorApi.ShownCleanerGivesNothing | app/api/processor.py:38-51 | The `deleteCrossTalk` of app/utils/seq_utils.py has no `algorithm` or `return_matrix` parameter, so every call raises TypeError and every sequence yields no records |
| ProcessorApi.AppliedFailsAfterFirst | app/api/processor.py:28-74 | When the cleaner always fails, the loop fails at its first pass |
| ProcessorApi.Processor.constructor | app/api/processor.py:15-25 | A new processor neither saves frames nor statistics and uses the folders "processed_sequences" and "statistics" |
| ProcessorApi.Processor.ProcessSingleSequence | app/api/processor.py:27-74 | The records are those of the algorithm loop, and the cleaned frames are written when saving is on. An exception anywhere gives no records and writes nothing |
| ProcessorApi.Processor.SaveCleaned | app/api/processor.py:63-69 | The saving loop writes the i-th cleaned frame under the i-th algorithm number, in order |
| ProcessorApi.AppliedErrSticks | app/api/processor.py:28-74 | Once part of the algorithm loop fails, the whole loop fails |
| ProcessorApi.GatheredIsUnion | app/api/processor.py:92-107 | However the workers finish, the gathered statistics hold exactly the records of every sequence, each once |
| ProcessorApi.ReorderedMultiset | app/api/processor.py:102-107 | Taking the per-sequence results in any completion order keeps the same results |
| ProcessorApi.ProcessSequences | app/api/processor.py:76-125 | An invalid `alg` raises ValueError before any work. Otherwise the statistics are every sequence's records in the order the workers finish, the same records as in sequence order, and the table is written under `statistics_<count>_<stamp>.csv` when asked |
| Registry.DataRegistry.constructor | app/core/data_registry.py:8-10 | A new registry knows no name, neither a path nor a frame |
| Registry.DataRegistry.SetFile | app/core/data_registry.py:12-13 | The name now maps to the given path, replacing an earlier one; every other path and all frames stay as they were |
| Registry.DataRegistry.GetPath | app/core/data_registry.py:15-16 | Returns the registered path exactly when the name is registered, and KeyError otherwise |
| Registry.DataRegistry.HasFile | app/core/data_registry.py:18-19 | True exactly for a name that has a registered path, the names on which `GetPath` succeeds; `SetFile` and `Remove` change it only for their own name |
| Registry.DataRegistry.Remove | app/core/data_registry.py:21-23 | The name is gone from both dictionaries and nothing else changes; an unknown name is no error and changes nothing |
| Registry.DataRegistry.SetDf | app/core/data_registry.py:25-26 | The name now maps to the given frame; every other frame and all paths stay as they were |
| Registry.DataRegistry.GetDf | app/core/data_registry.py:28-29 | Returns the registered frame object exactly when the name has one, and KeyError otherwise |
| Registry.DataRegistry.HasDf | app/core/data_registry.py:31-32 | True exactly for a name that has a registered frame, the names on which `GetDf` succeeds; registering a path never makes it true (`RegistrySession`) |
| Registry.RegistrySession | app/core/data_registry.py:12-23 | A second `set_file` replaces the path, registering a path adds no frame, and removing one name forgets it while another name keeps its path |
| SequenceApi.ExtraColumnRefused | app/api/sequence.py:22-27 | A frame with a column outside A, G, C, T is refused |
| SequenceApi.MissingColumnRefused | app/api/sequence.py:22-27 | A frame lacking one of A, G, C, T is refused |
| SequenceApi.PermutedColumnsAccepted | app/api/sequence.py:22-27 | The four channel columns in any order are accepted |
| SequenceApi.CheckColumns | app/api/sequence.py:48-51 | The column checks pass exactly when each label names one column whose cells all convert to numbers. They raise KeyError only when a label is missing |
| SequenceApi.Validated | app/api/sequence.py:47-64 | `validate_data` answers True exactly when each of A, G, C, T is a single column whose cells all convert and the frame has rows |
| SequenceApi.LoadedFrameValidates | app/api/sequence.py:47-64 | A numeric frame with the columns A, G, C, T validates exactly when it is not empty |
| SequenceApi.Sequence.constructor | app/api/sequence.py:29-33 | The sequence keeps the frame, name, source path, matrix and dye names it was given |
| SequenceApi.NewSequence | app/api/sequence.py:14-36 | Construction succeeds exactly when the column set is {A, G, C, T}, and raises ValueError otherwise. On success the sequence holds a fresh copy of the frame and the given name, path, matrix and dye names |
| SequenceApi.Sequence.Length | app/api/sequence.py:41-42 | `len(seq)` is the number of sample rows of the held frame; sequences of different lengths are never equal (`EqualsIsEquivalence`) |
| SequenceApi.Sequence.Equals | app/api/sequence.py:44-45 | `==` compares the name and the length only, never the samples; it is an equivalence (`EqualsIsEquivalence`) and frames of equal length under one name compare equal (`SameNameSameLength`) |
| SequenceApi.Sequence.ValidateData | app/api/sequence.py:47-64 | `validate_data` on the held frame is `Validated` on it: a conversion failure for a channel column, False for an empty frame, True otherwise; a loaded frame validates exactly when it has a row (`LoadedFrameValidates`) |
| SequenceApi.EqualsIsEquivalence | app/api/sequence.py:41-45 | `==` (same name, same length) is reflexive, symmetric and transitive, and sequences of different lengths are never equal |
| SequenceApi.SameNameSameLength | app/api/sequence.py:44-45 | Two sequences built under one name from frames of equal length compare equal, whatever their values |
| SeqUtils.PairEvents | app/utils/seq_utils.py:105-116 | One progress report per pair attempted so far |
| SeqUtils.RoundsEvents | app/utils/seq_utils.py:105-175 | Each round sends 12 pair reports and one closing report |
| SeqUtils.RoundsEventsSnoc | app/utils/seq_utils.py:105-175 | A further round appends its 12 pair reports and its closing report to those of the earlier rounds |
| SeqUtils.Diagnostics | app/utils/seq_utils.py:146-159 | The iteration callback is called once per completed round |
| SeqUtils.DiagnosticsSnoc | app/utils/seq_utils.py:157-159 | A further round appends one callback with its number and its fits |
| SeqUtils.SelectMinRows | app/utils/seq_utils.py:127-134 | The loop over the sections picks the row with the smallest channel-j value in each section, in section order |
| SeqUtils.AnalysePair | app/utils/seq_utils.py:118-144 | The body of the pair loop computes exactly the pair's fit |
| SeqUtils.FitPairsErr | app/utils/seq_utils.py:95-144 | Once a pair of a round fails, the round fails with that error however many more pairs are attempted |
| SeqUtils.FitPairsStep | app/utils/seq_utils.py:95-144 | Fitting one more pair appends its fit to the round or fails the round with its error |
| SeqUtils.PlaceSlopesSnoc | app/utils/seq_utils.py:143 | Placing one more slope sets one entry of the round's matrix, at row j and column i |
| SeqUtils.VisitedSlot | app/utils/seq_utils.py:107-110 | The pair (i, j) is the one reached at its progress slot, which lies in 0..11 |
| SeqUtils.AnalyseRound | app/utils/seq_utils.py:95-144 | The nested loops give the round's fits and its matrix. A failure reports how many pairs were attempted, the last of which failed |
| SeqUtils.AnalyseRow | app/utils/seq_utils.py:98-144 | The inner loop over j fits channel i's three pairs in order, or reports the first failure, which is the failure of the round |
| SeqUtils.AnalyseSlot | app/utils/seq_utils.py:102-144 | One pass for a pair (i, j) with i different from j appends the pair's fit and sets its slope in the round's matrix, or fails the round with the pair's error |
| SeqUtils.RunRound | app/utils/seq_utils.py:83-169 | One pass of the while loop is one step of the estimate, and it also returns the round's 12 fits (or the error of the first pair that failed). A completed round attempted all 12 pairs; a failed one attempted pairs up to the one that failed |
| SeqUtils.ProgressStep | app/utils/seq_utils.py:105-175 | The reports already sent, then one round's pair reports and its closing report, are the reports of the longer run |
| SeqUtils.ReportedRound | app/utils/seq_utils.py:83-175 | The pass computes the next step of the estimate. The iteration callback is made once the 12 fits are in, also when the round then fails because its matrix does not invert; a round whose pair fit fails makes none. On success the reports and callbacks so far are those of the rounds run, the last one included |
| SeqUtils.RoundDiagnostic | app/utils/seq_utils.py:146-159 | A round makes one callback, with its number and its fits, exactly when the callback is given and all 12 fits came in |
| SeqUtils.Delivered | app/utils/seq_utils.py:83-169 | The callbacks of the loop whatever its outcome: one per round run, plus one for a failing round whose fits came in |
| SeqUtils.DeliveredAfterStep | app/utils/seq_utils.py:83-169 | The callbacks of the loop are decided by the outcome of its first round: the failing round's own callback, the converged round's, or those of the rest of the loop |
| SeqUtils.DeliveredCompleted | app/utils/seq_utils.py:83-175 | For a run that completes, the callbacks are exactly one per round of its trace |
| SeqUtils.FailedRoundReported | app/utils/seq_utils.py:157-166 | A round whose fits all came in but whose step fails (a singular round matrix) fails the run and has still made its callback |
| SeqUtils.ReportRound | app/utils/seq_utils.py:104-175 | Given how a pass ended, the pass sends one progress report per pair attempted; on success it adds the closing report. It makes the round's callback exactly when the 12 fits came in |
| SeqUtils.EstimateCrosstalk | app/utils/seq_utils.py:30-183 | The result is the estimate. Without a progress callback no report is sent, and with one the first report is 0%. For a completed run the reports are exactly the run's. The iteration callbacks are always those of the loop, one per round whose fits came in, a failing round included; for a completed run that is once per round with its fits |
| SeqUtils.AdvanceRound | app/utils/seq_utils.py:83-175 | One pass of the loop read against the whole run: it ends the run with an error, ends it by converging, or leaves the rest of the run and of its callbacks to the unmixed data and the new W |
| SeqUtils.RunRounds | app/utils/seq_utils.py:83-175 | The while loop gives either the error of the round that failed or the product W with the rounds run, and reports and callbacks exactly as the loop makes them |
| SeqUtils.Subtract | app/utils/seq_utils.py:208 | Subtracting columns is elementwise and keeps the length |
| SeqUtils.Baselined | app/utils/seq_utils.py:186-210 | Baseline correction keeps the labels and the number of samples |
| SeqUtils.BaselineSubtracts | app/utils/seq_utils.py:206-208 | Each corrected value plus its baseline gives back the original value |
| SeqUtils.BaselineCor | app/utils/seq_utils.py:186-210 | The caller's frame is corrected in place and returned, exactly when every column's baseline fits. Otherwise ValueError, with the columns before the failing one already corrected |
| SeqUtils.Prepared | app/utils/seq_utils.py:288-298 | Smoothing and baseline correction keep the labels and the number of samples |
| SeqUtils.Cleaned | app/utils/seq_utils.py:242-321 | The cleaned frame keeps the labels and the number of samples |
| SeqUtils.CleanedWithIdentity | app/utils/seq_utils.py:314-316 | Cleaning with the identity matrix leaves the prepared frame unchanged |
| SeqUtils.StageEvents | app/utils/seq_utils.py:289-298 | At most two stage messages precede the matrix |
| SeqUtils.CleanEvents | app/utils/seq_utils.py:288-321 | A successful clean always ends with the 95% message and then the 100% message |
| SeqUtils.CleanEventsRestart | app/utils/seq_utils.py:301-308 | When the matrix is estimated, the reported percentage falls from 50 back to 0, because the estimator restarts its own count |
| SeqUtils.PrepareData | app/utils/seq_utils.py:288-298 | Stages 1 and 2 yield the prepared frame: a new one after smoothing, the caller's own otherwise. The caller's frame changes only when the baseline stage runs on it directly; the stage messages are reported in order |
| SeqUtils.ObtainMatrix | app/utils/seq_utils.py:300-308 | Stage 3 uses the given matrix, or else the default estimate (`epsilon=0.05`, `iter=11`) with its reports after the 50% message. Its iteration callbacks are those of the estimate, also when the estimate fails |
| SeqUtils.DeleteCrossTalk | app/utils/seq_utils.py:242-321 | The result is a new frame, the cleaned one, exactly when cleaning succeeds. The caller's frame is corrected in place only by a baseline stage without smoothing. The progress reports are those of the run, and the iteration callbacks are those of the estimate, also when it fails; none when preparing fails |
| TabManagement.Rank | app/ui/managers/tab_manager.py:20 | A title has a rank exactly when it appears in the tab order, and the rank is its position there |
| TabManagement.Widgets | app/ui/managers/tab_manager.py:52-53 | The widgets of the tab bar, one per tab in tab order |
| TabManagement.LastBelow | app/ui/managers/tab_manager.py:51-57 | The insert position lies just after the last tab, among the first n, whose rank is below the target; no later tab ranks below it |
| TabManagement.LastClean | app/ui/managers/tab_manager.py:75-78 | The last tab among the first n whose title contains "Clean", or none when there is no such tab |
| TabManagement.IndexOf | app/ui/managers/tab_manager.py:121 | `indexOf` gives the first tab holding the widget, or -1 exactly when no tab holds it |
| TabManagement.InsertPosSpec | app/ui/managers/tab_manager.py:35-59 | An unknown title goes at the end. A known one goes just after the last tab of lower rank, and no tab from there on ranks lower |
| TabManagement.InsertUnrankedKeepsOrder | app/ui/managers/tab_manager.py:61-81 | Inserting an algorithm's "Clean (…)" page, which has no rank, anywhere keeps the ranked tabs in tab order |
| TabManagement.InsertKeepsOrder | app/ui/managers/tab_manager.py:35-59 | Inserting a tab at the position `_get_tab_insert_position` picks keeps the ranked tabs in tab order |
| TabManagement.InsertBetweenKeepsOrder | app/ui/managers/tab_manager.py:35-59 | A ranked tab placed after every lower-ranked tab and before every other ranked tab keeps the order |
| TabManagement.RemoveKeepsOrder | app/ui/managers/tab_manager.py:118-124 | Removing a tab keeps the remaining tabs in tab order |
| TabManagement.AlgorithmTitleUnranked | app/ui/managers/tab_manager.py:80 | The title "Clean (<name>)" is not in the tab order |
| TabManagement.InsertedWidgetIn | app/ui/managers/tab_manager.py:81 | After an insertion the tab bar holds the old widgets plus the new one |
| TabManagement.RemovedWidgetIn | app/ui/managers/tab_manager.py:123 | After a removal the tab bar holds the old widgets except possibly the removed one |
| TabManagement.InsertConsistent | app/ui/managers/tab_manager.py:101-116 | Inserting a new page and recording its widget keeps each recorded widget in exactly one tab under its own title |
| TabManagement.RemoveConsistent | app/ui/managers/tab_manager.py:118-124 | Removing a recorded page and clearing its field keeps that correspondence, and the widget leaves the tab bar |
| TabManagement.TabManager.constructor | app/ui/managers/tab_manager.py:22-33 | The manager starts with no per-algorithm page and no managed page shown, the tab bar holding only the Raw tab |
| TabManagement.TabManager.InsertPosition | app/ui/managers/tab_manager.py:35-59 | The loop computes the insert position described by `InsertPosSpec` |
| TabManagement.TabManager.CleanPosition | app/ui/managers/tab_manager.py:72-78 | The position is just after the last tab containing "Clean", or the ranked position of "Clean" when there is none |
| TabManagement.TabManager.Ensure | app/ui/managers/tab_manager.py:101-227 | A page already shown changes nothing. Otherwise its widget is inserted under its title at the ranked position and recorded; the tabs stay in order |
| TabManagement.TabManager.Remove | app/ui/managers/tab_manager.py:118-236 | A page not shown changes nothing. A shown page is removed at its index and its field cleared; the widget is no longer in the tab bar and the order is kept |
| TabManagement.TabManager.EnsureCleanForAlgorithm | app/ui/managers/tab_manager.py:61-88 | A known algorithm changes nothing. A new one gets a page "Clean (<name>)" after the last Clean tab, or at the ranked Clean position, and is recorded; the order is kept |
| TabManagement.TabManager.CleanWidget | app/ui/managers/tab_manager.py:90-99 | Returns the algorithm's page exactly when it was created; that page is in the tab bar |
| PlotRendering.OptimalFactor | app/ui/plotting/plot_renderer.py:73-88 | The factor is 1 when the point count is within the limit. A zero limit with points to show raises ZeroDivisionError, and this is the only error |
| PlotRendering.OptimalFactorSpec | app/ui/plotting/plot_renderer.py:83-88 | With a positive cap the factor lies between 1 and the cap. Above a positive limit it is the largest factor whose multiple of the limit does not exceed the point count, capped |
| PlotRendering.StridedRows | app/ui/plotting/plot_renderer.py:70 | `iloc[::factor]` keeps the labels and exactly the rows 0, factor, 2*factor, …, in order |
| PlotRendering.DownsampleData | app/ui/plotting/plot_renderer.py:42-71 | A given factor is used as is, and 1 or less keeps the frame. Without one, the optimal factor is computed, failing only where that raises. A factor above 1 keeps every factor-th row; the factor returned is at least 1 |
| PlotRendering.Rendering | app/ui/plotting/plot_renderer.py:123-141 | Disabled thinning shows the frame unchanged. Manual mode uses the slider value, at least 1. Automatic mode thins only frames above the limit, with a factor up to the cap, and fails only for a zero limit |
| PlotRendering.XCoordinates | app/ui/plotting/plot_renderer.py:170-179 | The k-th x coordinate is k times the factor, for every plotted sample |
| PlotRendering.PlottedPointsAreSourceSamples | app/ui/plotting/plot_renderer.py:123-188 | Every plotted point (x, y) of column i is (k*f, value of row k*f) of the original frame, drawn under that column's name |
| PlotRendering.CurveColorsCycle | app/ui/plotting/plot_renderer.py:149-185 | Two columns get the same pen colour exactly when their indices agree modulo 4 |
| PlotRendering.CachePut | app/ui/plotting/plot_renderer.py:199-207 | The stored frame is found under its path. A full cache loses its oldest entry, every other entry is kept, and no other key appears |
| PlotRendering.CachePutOrder | app/ui/plotting/plot_renderer.py:202-207 | Keys keep insertion order: the oldest drops when full, and a new key goes last while a known key keeps its place |
| PlotRendering.CachePutBounded | app/ui/plotting/plot_renderer.py:202-207 | The cache never holds more than 10 files |
| PlotRendering.CachePutEvictsEvenOnHit | app/ui/plotting/plot_renderer.py:202-205 | Re-caching a path already cached in a full cache still evicts the oldest entry, so the cache shrinks to 9 |
| PlotRendering.PreloadedEntries | app/ui/plotting/plot_renderer.py:237-246 | After preloading, each cached frame was either cached before or is the successful load of a preloaded path |
| PlotRendering.KeepUnrelated | app/ui/plotting/plot_renderer.py:279-287 | The data cache keeps exactly the keys that neither equal the file name nor start with its stem, with their frames |
| PlotRendering.KeepUnrelatedPlots | app/ui/plotting/plot_renderer.py:290-297 | The plot cache keeps exactly the non-string keys and the string keys unrelated to the file, with their values |
| PlotRendering.ClearingReachesOtherFiles | app/ui/plotting/plot_renderer.py:280-284 | Clearing "a.csv" also drops "ab.csv", whose name merely starts with "a", and "a_clean.csv", while "b.csv" stays |
| PlotRendering.DropEvictable | app/ui/plotting/plot_renderer.py:281-287 | The two loops over the data cache leave exactly the unrelated keys |
| PlotRendering.DropEvictablePlots | app/ui/plotting/plot_renderer.py:291-297 | The two loops over the plot cache leave exactly the unrelated keys |
| PlotRendering.PlotRenderer.constructor | app/ui/plotting/plot_renderer.py:18-35 | The renderer starts with a limit of 400000 points, a cap of 10, current factor 1, automatic mode and empty caches |
| PlotRendering.PlotRenderer.PlotDataFrame | app/ui/plotting/plot_renderer.py:108-193 | One curve per column, each the column of the thinned frame at the factor in use, which becomes the current factor. A failure leaves it unchanged; settings and caches never change |
| PlotRendering.PlotRenderer.GetCachedData | app/ui/plotting/plot_renderer.py:195-197 | The cached frame for the path exactly when one is cached |
| PlotRendering.PlotRenderer.CacheData | app/ui/plotting/plot_renderer.py:199-207 | The lazy cache becomes the bounded insertion described by `CachePut`; nothing else changes |
| PlotRendering.PlotRenderer.LoadDataEfficiently | app/ui/plotting/plot_renderer.py:209-226 | A cached path answers from the cache without loading. Otherwise the load's result is returned and cached on success, and a failing load caches nothing |
| PlotRendering.PlotRenderer.PreloadDataAsync | app/ui/plotting/plot_renderer.py:228-246 | Only the first three paths are preloaded, skipping cached ones and ignoring failed loads |
| PlotRendering.PlotRenderer.UpdatePerformanceSettings | app/ui/plotting/plot_renderer.py:248-261 | Each setting given replaces its value; one not given is kept |
| PlotRendering.PlotRenderer.ClearCache | app/ui/plotting/plot_renderer.py:263-266 | Both the plot cache and the lazy cache are emptied; the current-data cache stays |
| PlotRendering.PlotRenderer.ClearCacheForFile | app/ui/plotting/plot_renderer.py:268-298 | The registered path of the file leaves the lazy cache. The data and plot caches lose every key equal to the name or starting with its stem |
| PlotRendering.PlotRenderer.GetPerformanceInfo | app/ui/plotting/plot_renderer.py:300-314 | Reports the lazy cache's size, the cache bound, the cap, the point limit, the current factor and the mode |
| PlotRendering.PlotRenderer.SetManualDownsampleMode | app/ui/plotting/plot_renderer.py:316-323 | Sets manual mode and nothing else |
| PlotRendering.PlotRenderer.SetDisableDownsample | app/ui/plotting/plot_renderer.py:325-332 | Sets disabled thinning and nothing else |

## Left out

- Numeric kernels: `l1_regression`, pandas quantiles, `np.linalg.inv`, the peakutils baseline, `savgol_filter` and the `exp` of `getPeak`. They are uninterpreted functions in `Kernels.Numerics`. The model states only how their results are used, not their numerical accuracy.
- Floating point: values are Dafny `real`. NaN, infinities and rounding are not modelled. `nan_to_num` in the renderer and a zero column sum in the final normalisation are the places they would show; the latter is an error outcome in the model.
- Randomness: the generators' `rng` draws are parameters, and their distributions are not modelled.
- Disk, CSV and XML I/O. Reading and writing files, `os.listdir`, `shutil` and `to_csv` become parameters or recorded writes. The `.info` side files of the data manager (`_save_sequence_info_to_file`, `_load_sequence_info_from_file`) are not modelled.
- `save_iteration_data`, `load_iteration_data` and `check_iteration_file_exists` are imported from app/core/processing.py but not defined there. They are not part of this model; the iteration files on disk are a parameter.
- `estimate_crosstalk_2`, the second algorithm, is not part of this model. The processor's cleaner is a parameter, because the shown `deleteCrossTalk` lacks the `algorithm` and `return_matrix` arguments the processor passes; `ProcessorApi.ShownCleanerGivesNothing` states what the shown function gives.
- The five-value options of the batch dialog come from a dialogs module that is not part of this model. `DataProcessing` takes them as a record; `Dialogs` models the four-value dialog of app/ui/dialogs.py.
- Concurrency: Qt threads, signals and the cancel flag of the worker, and the `ProcessPoolExecutor`. Only the completion order of the pool is modelled, as a permutation.
- Rendering, themes, labels, status texts, message boxes and widget layout. This covers `_setup_ui`, `apply_theme`, `optimize_plot_settings`, `plot_data`, `update_downsample_slider_label`, `resizeEvent`, the regression-line drawing, `makePlot` and `draw_line`.
- `DataProcessing.DataProcessingManager`: `on_progress_updated` only turns progress into status text and is left out.
- `DataProcessing.DataProcessingManager.ProcessFile`, `DataProcessing.DataProcessingManager.OnProcessingFinished` and `DataProcessing.DataProcessingManager.FinalizeDual` model the queue and result bookkeeping only. Their effects on the registry and the data manager are not modelled: the `set_df` of the loaded frame before each run (app/ui/processing/data_processing.py:591-592, 693-694, 775-776); the `set_file`/`set_df` of the clean files (279-280, 518-519, 919-920); the in-place baseline correction of the registered raw frame (299, 542, 871); and the calls to `store_sequence_info`, `store_crosstalk_matrix` and `store_matrix_difference`, the `.matrix` file and `finalize_iteration_results` (237-304, 396-423, 933-989). `DataManagement`, `Registry`, `SeqUtils.BaselineCor` and `IterationManagement` model those operations on their own.
- `FileOperations`: the plotting-facade calls inside `delete_file` are not modelled. `delete_selected_files` is `delete_file` repeated over the selected items and is left out, as is `_remove_clean_data`, which only forwards to the facade.
- `LegacyPlotting.PlottingManager`: the methods that repeat the current renderer or the iteration manager are modelled once, in `PlotRendering` and `IterationManagement`. These are the downsampling helpers, preloading, performance settings, `clear_cache`, the modes, `ensure_clean_tab`, the iterations tab, `show_iterations_for_file`, `remove_clean_data_for_file` and the disk helpers.
- `utils.py` at the repository root: `applyCrossTalk`, `getPeak`, `getCrossTalk`, `getCrossTalkColumn`, `makeFig` and `baseline_cor` are the same code as in app/utils, so the `GenerateUtils`, `AppUtils` and `SeqUtils` members model both copies. `load_data_from_csv` of that file is left out.
- `Sequence.__repr__` builds a display string and is left out.
- `GenerateUtils.TestData`: a zero peak width with a non-empty trace is an error (NonFinite) in the model. numpy raises nothing there: it divides 0 by 0 at each peak's centre and returns a frame holding NaN samples, which the model, having no NaN, cannot represent.
- `GenerateUtils.GetTestData`: the same zero-width case is returned as NonFinite instead of a frame with NaN samples.
- `LegacyUtils.LegacyTestData`: the same zero-width case of the older generator is an error (NonFinite) instead of a frame with NaN samples.
- `LegacyUtils.LegacyGetTestData`: as `LegacyUtils.LegacyTestData`, NaN samples from a zero peak width are returned as NonFinite.
- `Dialogs.AskTestDataParams`: Qt's prompt keeps the noise level to three decimals; the model clamps it to the range but does not round it.
- `Dialogs.ProcessingOptionsDialog.EditWindowSpin`: keyboard editing of a spin box passes through intermediate values. The model treats an edit as one committed value.
- The channel-name list `A, C, G, T` in the estimator's progress messages differs from the column order `A, G, C, T`. Only the numbers of the messages are modelled, not their text.

## Findings

| source | as written | input that shows it | evidently intended | confidence | as-written member | corrected member |
|---|---|---|---|---|---|---|
| app/ui/managers/iteration_manager.py:218-222 | After a miss in memory and on disk for the file, `show_iterations_for_file` retries with the bare base name. `_load_iteration_results_from_disk` then calls `registry.get_path` unguarded, and that raises KeyError for a base name that is not registered | An empty store, nothing cleared, `a.csv` registered without an iterations file; show `a.csv` | An unregistered name counts as having no saved iterations, as `_check_iteration_file_exists` does, so the call answers False | not executed | IterationManagement.ShowRaisesForUnregisteredBase | IterationManagement.GuardedShowAgrees |
