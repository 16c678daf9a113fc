/** app/ui/processing/data_processing.py: the bookkeeping of
    `DataProcessingManager` — the batch queue, the per-file list of
    algorithms run one thread after another, the names of the results of a
    run with several algorithms, and the exported statistics table. The
    worker thread is represented by the parameters it was started with;
    plotting, tabs and status texts are not part of this model, and neither
    are the manager's calls into the registry and the data manager (the
    frames and clean files it registers, the baseline correction of the
    registered raw frame, the stored matrices and sequence information). */
module DataProcessing {
  import opened PyCore
  import opened PyStr
  import opened PyPath
  import opened Naming
  import opened Frames
  import opened Matrix
  import DataManagement

  /** The options the processing dialog returns and the queue is run with:
      smoothing, baseline removal, window, polynomial order and the
      estimators to run in turn. */
  datatype Options = Options(smooth: bool, baseline: bool, window: int, polyorder: int, algorithms: seq<string>)

  /** A started processing thread: what it was started with, and whether it
      was asked to cancel. */
  datatype Run = Run(file: string, smooth: bool, baseline: bool, window: int, polyorder: int,
                     algorithm: string, saveData: bool, cancelled: bool)

  /** What one algorithm's thread delivers: the cleaned frame, its path and
      the estimated matrix. */
  datatype AlgorithmResult = AlgorithmResult(clean: Table, cleanPath: string, matrix: Option<Mat4>)

  /** The batch fields, gathered so a method can say they did not change. */
  datatype Batch = Batch(queue: seq<string>, index: nat, options: Option<Options>, saveData: bool, saveStatistics: bool)

  /** The selected files that have not been processed, in selection order. */
  function Unprocessed(selected: seq<string>, processed: string -> bool): seq<string> {
    if |selected| == 0 then []
    else
      var last := selected[|selected| - 1];
      Unprocessed(selected[..|selected| - 1], processed) + (if processed(last) then [] else [last])
  }

  /** The queue holds exactly the selected files not yet processed. */
  lemma {:induction false} UnprocessedMembers(selected: seq<string>, processed: string -> bool)
    ensures forall x :: x in Unprocessed(selected, processed) <==> x in selected && !processed(x)
    ensures |Unprocessed(selected, processed)| <= |selected|
  {
    if |selected| > 0 {
      var front := selected[..|selected| - 1];
      UnprocessedMembers(front, processed);
      assert selected == front + [selected[|selected| - 1]];
    }
  }

  /** Filtering keeps the selection order: the queue of a selection made of
      two parts is the queue of the first part followed by that of the second. */
  lemma {:induction false} UnprocessedKeepsOrder(a: seq<string>, b: seq<string>, processed: string -> bool)
    ensures Unprocessed(a + b, processed) == Unprocessed(a, processed) + Unprocessed(b, processed)
    decreases |b|
  {
    if |b| == 0 {
      assert a + b == a;
    } else {
      var front := b[..|b| - 1];
      assert (a + b)[..|a + b| - 1] == a + front;
      UnprocessedKeepsOrder(a, front, processed);
    }
  }

  /** The name of the k-th result (from 1) of a run with several algorithms:
      `<base>_clean_<k>` with the extension ".csv", since the original's
      extension is taken to be ".srd" or ".csv" and ".srd" is saved as ".csv". */
  function DualCleanName(base: string, k: nat): string {
    base + CleanMarker + "_" + NatToString(k) + ".csv"
  }

  /** Result names are CSV names, differ from one algorithm to the next, and
      lead back to the base they were made from. */
  lemma DualCleanNames(base: string, k: nat, l: nat)
    requires !Contains(base, CleanMarker)
    ensures EndsWith(DualCleanName(base, k), ".csv")
    ensures BaseName(DualCleanName(base, k)) == base
    ensures k != l ==> DualCleanName(base, k) != DualCleanName(base, l)
  {
    BaseNameOfCleanName(base, "_" + NatToString(k) + ".csv");
    assert DualCleanName(base, k) == base + CleanMarker + ("_" + NatToString(k) + ".csv");
    var a, b := DualCleanName(base, k), DualCleanName(base, l);
    if a == b {
      var n := |base| + 7;
      assert a[n..|a| - 4] == NatToString(k);
      assert b[n..|b| - 4] == NatToString(l);
      NatToStringInjective(k, l);
    }
  }

  /** The original's extension as `_finalize_dual_processing` determines it,
      and the extension results are saved with. */
  function OriginalExt(fileName: string, hasFrame: bool): string {
    if hasFrame && EndsWith(fileName, ".srd") then ".srd" else ".csv"
  }

  function SaveExt(originalExt: string): string {
    if originalExt == ".srd" then ".csv" else originalExt
  }

  /** The saved extension is ".csv" whatever the file. */
  lemma SaveExtIsCsv(fileName: string, hasFrame: bool)
    ensures SaveExt(OriginalExt(fileName, hasFrame)) == ".csv"
  {
  }

  /** One finalised result: its name, where it was saved (if it was), and
      what its thread delivered. */
  datatype CleanFile = CleanFile(name: string, path: Option<string>, algorithm: string, result: AlgorithmResult)

  /** `d[k] = v` on a list of key/value pairs kept in insertion order. */
  function PutResult(d: seq<(string, AlgorithmResult)>, k: string, v: AlgorithmResult): (r: seq<(string, AlgorithmResult)>)
    ensures |r| == |d| || |r| == |d| + 1
    ensures exists i :: 0 <= i < |r| && r[i] == (k, v)
  {
    if |d| == 0 then
      assert [(k, v)][0] == (k, v);
      [(k, v)]
    else if d[0].0 == k then
      assert ([(k, v)] + d[1..])[0] == (k, v);
      [(k, v)] + d[1..]
    else
      var rest := PutResult(d[1..], k, v);
      assert exists i :: 0 <= i < |rest| && rest[i] == (k, v);
      var i :| 0 <= i < |rest| && rest[i] == (k, v);
      assert ([d[0]] + rest)[i + 1] == (k, v);
      [d[0]] + rest
  }

  /** A key not stored yet goes last. */
  lemma {:induction false} PutResultNew(d: seq<(string, AlgorithmResult)>, k: string, v: AlgorithmResult)
    requires forall i :: 0 <= i < |d| ==> d[i].0 != k
    ensures PutResult(d, k, v) == d + [(k, v)]
  {
    if |d| > 0 {
      assert forall i :: 0 <= i < |d[1..]| ==> d[1..][i].0 != k by {
        forall i | 0 <= i < |d[1..]| ensures d[1..][i].0 != k { assert d[1..][i] == d[i + 1]; }
      }
      PutResultNew(d[1..], k, v);
      assert d == [d[0]] + d[1..];
    }
  }

  /** A key stored already keeps its place and gets the new value. */
  lemma {:induction false} PutResultExisting(d: seq<(string, AlgorithmResult)>, k: string, v: AlgorithmResult, i: nat)
    requires i < |d| && d[i].0 == k
    requires forall j :: 0 <= j < i ==> d[j].0 != k
    ensures PutResult(d, k, v) == d[..i] + [(k, v)] + d[i + 1..]
  {
    if i > 0 {
      assert d[0].0 != k;
      var t := d[1..];
      assert t[i - 1] == d[i];
      forall j | 0 <= j < i - 1 ensures t[j].0 != k { assert t[j] == d[j + 1]; }
      PutResultExisting(t, k, v, i - 1);
      assert [d[0]] + (t[..i - 1] + [(k, v)] + t[i..]) == d[..i] + [(k, v)] + d[i + 1..];
    }
  }

  /** The k-th (from 0) of the finalised results: named `<base>_clean_<k+1>.csv`
      and saved into the sequence's folder when `save` holds. */
  function FinalFile(entry: (string, AlgorithmResult), base: string, save: bool, k: nat): CleanFile {
    var name := DualCleanName(base, k + 1);
    CleanFile(name, if save then Some(Join(Join("processed_sequences", base + "_seq"), name)) else None, entry.0, entry.1)
  }

  /** The results of a run with several algorithms, in the order they were stored. */
  function FinalFiles(results: seq<(string, AlgorithmResult)>, base: string, save: bool): seq<CleanFile> {
    seq(|results|, k requires 0 <= k < |results| => FinalFile(results[k], base, save, k))
  }

  lemma FinalFilesAppend(results: seq<(string, AlgorithmResult)>, k: nat, base: string, save: bool)
    requires k < |results|
    ensures FinalFiles(results[..k + 1], base, save) == FinalFiles(results[..k], base, save) + [FinalFile(results[k], base, save, k)]
  {
    var p, q := results[..k + 1], results[..k];
    var a, c := FinalFiles(p, base, save), FinalFiles(q, base, save);
    var b := c + [FinalFile(results[k], base, save, k)];
    assert |a| == |b|;
    forall i | 0 <= i < |a| ensures a[i] == b[i] {
      var e := results[i];
      assert p[i] == e;
      assert a[i] == FinalFile(e, base, save, i);
      if i < k {
        assert q[i] == e;
        assert b[i] == c[i] == FinalFile(e, base, save, i);
      }
    }
  }

  /** One finalised result: a CSV name leading back to the base name, with
      its algorithm and delivery kept, and a path exactly when it is saved. */
  lemma FinalFileNamed(entry: (string, AlgorithmResult), base: string, save: bool, k: nat)
    requires !Contains(base, CleanMarker)
    ensures var f := FinalFile(entry, base, save, k);
      f.name == DualCleanName(base, k + 1) && BaseName(f.name) == base && EndsWith(f.name, ".csv") &&
      (f.algorithm, f.result) == entry && (f.path.Some? <==> save)
  {
    DualCleanNames(base, k + 1, k + 1);
  }

  /** A saved result lies in the folder `processed_sequences/<base>_seq`. */
  lemma FinalFilePath(entry: (string, AlgorithmResult), base: string, k: nat)
    requires |base| > 0 && base[0] != '/'
    ensures FinalFile(entry, base, true, k).path == Some("processed_sequences/" + base + "_seq/" + DualCleanName(base, k + 1))
  {
    var folder := base + "_seq";
    assert folder[0] == base[0];
    JoinRelative("processed_sequences", folder);
    var dir := "processed_sequences/" + folder;
    assert Join("processed_sequences", folder) == dir;
    assert dir[|dir| - 1] == 'q';
    var name := DualCleanName(base, k + 1);
    assert name[0] == base[0];
    JoinRelative(dir, name);
    assert FinalFile(entry, base, true, k).path == Some(Join(Join("processed_sequences", folder), name));
    assert dir + "/" + name == "processed_sequences/" + base + "_seq/" + name;
  }

  /** The finalised results carry pairwise different names. */
  lemma FinalFilesDistinct(results: seq<(string, AlgorithmResult)>, base: string, save: bool)
    requires !Contains(base, CleanMarker)
    ensures forall j, k :: 0 <= j < k < |results| ==> FinalFiles(results, base, save)[j].name != FinalFiles(results, base, save)[k].name
  {
    forall j, k | 0 <= j < k < |results|
      ensures FinalFiles(results, base, save)[j].name != FinalFiles(results, base, save)[k].name
    {
      assert FinalFiles(results, base, save)[j].name == DualCleanName(base, j + 1);
      assert FinalFiles(results, base, save)[k].name == DualCleanName(base, k + 1);
      DualCleanNames(base, j + 1, k + 1);
    }
  }

  /** The names of finalised results. */
  function Names(files: seq<CleanFile>): seq<string> {
    seq(|files|, k requires 0 <= k < |files| => files[k].name)
  }

  lemma ListedStep(items: seq<string>, files: seq<CleanFile>, f: CleanFile)
    ensures Listed(items, Names(files + [f])) ==
      var front := Listed(items, Names(files));
      if f.name in front then front else front + [f.name]
  {
    assert Names(files + [f])[..|files|] == Names(files);
  }

  /** A file of the batch is still waiting. */
  predicate Pending(b: Batch) { b.index < |b.queue| }

  /** The waiting file can be started: options are set and name an algorithm. */
  predicate Startable(b: Batch) {
    Pending(b) && b.options.Some? && |b.options.value.algorithms| > 0
  }

  /** The thread the batch starts for its next file: the first algorithm,
      the batch options, and the batch's choice to save data. */
  function QueueRun(b: Batch): Run
    requires Startable(b)
  {
    var o := b.options.value;
    Run(b.queue[b.index], o.smooth, o.baseline, o.window, o.polyorder, o.algorithms[0], b.saveData, false)
  }

  /** The results after a thread of a run with several algorithms finished:
      stored under the thread's algorithm when it names one. */
  function Stored(d: seq<(string, AlgorithmResult)>, t: Option<Run>, result: AlgorithmResult): seq<(string, AlgorithmResult)> {
    if t.Some? && |t.value.algorithm| > 0 then PutResult(d, t.value.algorithm, result) else d
  }

  /** The naming loop of `_finalize_dual_processing`: the k-th stored result
      (from 1) gets the name `<base>_clean_<k>` with the saved extension and,
      when `save` holds, a path in the sequence's folder; outside
      statistics-only mode each name not yet shown is added to the list. */
  method NameResults(results: seq<(string, AlgorithmResult)>, fileName: string, hasFrame: bool,
                     statisticsOnly: bool, save: bool, listedBefore: seq<string>)
    returns (files: seq<CleanFile>, listedAfter: seq<string>)
    ensures files == FinalFiles(results, BaseName(fileName), save)
    ensures listedAfter == (if statisticsOnly then listedBefore else Listed(listedBefore, Names(files)))
  {
    var base := BaseName(fileName);
    SaveExtIsCsv(fileName, hasFrame);
    files := [];
    listedAfter := listedBefore;
    for k := 0 to |results|
      invariant files == FinalFiles(results[..k], base, save)
      invariant listedAfter == (if statisticsOnly then listedBefore else Listed(listedBefore, Names(files)))
    {
      var name := base + CleanMarker + "_" + NatToString(k + 1) + SaveExt(OriginalExt(fileName, hasFrame));
      var path: Option<string> := None;
      if save {
        path := Some(Join(Join("processed_sequences", base + "_seq"), name));
      }
      FinalFilesAppend(results, k, base, save);
      ListedStep(listedBefore, files, CleanFile(name, path, results[k].0, results[k].1));
      files := files + [CleanFile(name, path, results[k].0, results[k].1)];
      if !statisticsOnly && name !in listedAfter {
        listedAfter := listedAfter + [name];
      }
    }
    assert results[..|results|] == results;
  }

  class DataProcessingManager {
    var thread: Option<Run>
    var currentFile: Option<string>
    var queue: seq<string>
    var queueIndex: nat
    var queueOptions: Option<Options>
    var batchSaveData: bool
    var batchSaveStatistics: bool
    var algorithms: seq<string>
    var algorithmIndex: nat
    var dualResults: seq<(string, AlgorithmResult)>
    /** Every thread started, in order. */
    var launched: seq<Run>

    function BatchState(): Batch
      reads this
    {
      Batch(queue, queueIndex, queueOptions, batchSaveData, batchSaveStatistics)
    }

    /** The state `_finish_queue_processing` and a cancelled batch leave. */
    predicate QueueCleared()
      reads this
    {
      queue == [] && queueIndex == 0 && queueOptions.None? && batchSaveData && !batchSaveStatistics
    }

    /** `is_statistics_only_mode`: a batch that saves statistics but no data. */
    predicate StatisticsOnly()
      reads this
    {
      |queue| > 0 && !batchSaveData && batchSaveStatistics
    }

    /** What a handler leaves once its file is done and its thread dropped,
        given the batch `b` and the threads `before` it found: the batch's
        next file started with the first algorithm and the index one further,
        or, with no file waiting, the batch finished and cleared. */
    predicate ContinuedFrom(b: Batch, before: seq<Run>, raised: Option<Error>)
      reads this
    {
      (!Pending(b) ==> QueueCleared() && thread.None? && currentFile.None? && launched == before && raised.None?) &&
      (Startable(b) ==>
        raised.None? && thread == Some(QueueRun(b)) && currentFile == Some(QueueRun(b).file) &&
        launched == before + [QueueRun(b)] && BatchState() == b.(index := b.index + 1) &&
        algorithms == b.options.value.algorithms && algorithmIndex == 0 && dualResults == []) &&
      (Pending(b) && !Startable(b) ==> raised.Some? && thread.None? && launched == before && BatchState() == b)
    }

    constructor ()
      ensures QueueCleared() && thread.None? && currentFile.None?
      ensures algorithms == [] && algorithmIndex == 0 && dualResults == [] && launched == []
    {
      thread := None;
      currentFile := None;
      queue := [];
      queueIndex := 0;
      queueOptions := None;
      batchSaveData := true;
      batchSaveStatistics := false;
      algorithms := [];
      algorithmIndex := 0;
      dualResults := [];
      launched := [];
    }

    /** `start_processing`: nothing while the held thread is still running
        (`running` is what the thread reports); otherwise a thread with these
        parameters starts on the file. */
    method StartProcessing(file: string, smooth: bool, baseline: bool, window: int, polyorder: int,
                           algorithm: string, saveData: bool, running: bool)
      modifies this
      ensures old(thread).Some? && running ==> thread == old(thread) && currentFile == old(currentFile) && launched == old(launched)
      ensures !(old(thread).Some? && running) ==>
        var run := Run(file, smooth, baseline, window, polyorder, algorithm, saveData, false);
        thread == Some(run) && currentFile == Some(file) && launched == old(launched) + [run]
      ensures BatchState() == old(BatchState())
      ensures algorithms == old(algorithms) && algorithmIndex == old(algorithmIndex) && dualResults == old(dualResults)
    {
      if thread.Some? && running {
        return;
      }
      var run := Run(file, smooth, baseline, window, polyorder, algorithm, saveData, false);
      thread := Some(run);
      currentFile := Some(file);
      launched := launched + [run];
    }

    /** `cancel_processing`: a running thread is asked to stop, and a batch
        in progress is dropped with it. */
    method CancelProcessing(running: bool)
      modifies this
      ensures !(old(thread).Some? && running) ==> thread == old(thread) && BatchState() == old(BatchState())
      ensures old(thread).Some? && running ==> thread == Some(old(thread).value.(cancelled := true))
      ensures old(thread).Some? && running && |old(queue)| > 0 ==> QueueCleared()
      ensures old(thread).Some? && running && |old(queue)| == 0 ==> BatchState() == old(BatchState())
      ensures currentFile == old(currentFile) && launched == old(launched)
      ensures algorithms == old(algorithms) && algorithmIndex == old(algorithmIndex) && dualResults == old(dualResults)
    {
      if thread.Some? && running {
        thread := Some(thread.value.(cancelled := true));
        if |queue| > 0 {
          queue := [];
          queueIndex := 0;
          queueOptions := None;
          batchSaveData := true;
          batchSaveStatistics := false;
        }
      }
    }

    /** `_finish_queue_processing`: reports how many files the batch had and
        whether its statistics are saved, then clears the batch. */
    method FinishQueue() returns (total: nat, statisticsSaved: bool)
      modifies this
      ensures total == |old(queue)| && statisticsSaved == old(batchSaveStatistics)
      ensures QueueCleared()
      ensures thread == old(thread) && currentFile == old(currentFile) && launched == old(launched)
      ensures algorithms == old(algorithms) && algorithmIndex == old(algorithmIndex) && dualResults == old(dualResults)
    {
      total := |queue|;
      statisticsSaved := batchSaveStatistics;
      queue := [];
      queueIndex := 0;
      queueOptions := None;
      batchSaveData := true;
      batchSaveStatistics := false;
    }

    /** `_process_next_in_queue`: with no file waiting the batch finishes;
        otherwise the waiting file starts with the first algorithm and the
        index moves on by exactly one. Unpacking absent options raises
        TypeError, and an empty algorithm list IndexError, before the index
        moves. */
    method ProcessNextInQueue(running: bool) returns (raised: Option<Error>)
      modifies this
      ensures !Pending(old(BatchState())) ==> QueueCleared() && raised.None? && launched == old(launched) && thread == old(thread)
      ensures Pending(old(BatchState())) && old(queueOptions).None? ==>
        raised == Some(TypeError) && BatchState() == old(BatchState()) && launched == old(launched) && thread == old(thread) &&
        algorithms == old(algorithms)
      ensures Pending(old(BatchState())) && old(queueOptions).Some? ==>
        algorithms == old(queueOptions).value.algorithms && algorithmIndex == 0 && dualResults == []
      ensures Pending(old(BatchState())) && old(queueOptions).Some? && |old(queueOptions).value.algorithms| == 0 ==>
        raised == Some(IndexError) && BatchState() == old(BatchState()) && launched == old(launched) && thread == old(thread)
      ensures Startable(old(BatchState())) ==>
        raised.None? && BatchState() == old(BatchState()).(index := old(queueIndex) + 1) &&
        (old(thread).Some? && running ==> launched == old(launched) && thread == old(thread)) &&
        (!(old(thread).Some? && running) ==>
          launched == old(launched) + [QueueRun(old(BatchState()))] && thread == Some(QueueRun(old(BatchState()))) &&
          currentFile == Some(old(queue)[old(queueIndex)]))
    {
      if queueIndex >= |queue| {
        var _, _ := FinishQueue();
        return None;
      }
      var name := queue[queueIndex];
      if queueOptions.None? {
        return Some(TypeError);
      }
      var o := queueOptions.value;
      algorithms := o.algorithms;
      algorithmIndex := 0;
      dualResults := [];
      if |o.algorithms| == 0 {
        return Some(IndexError);
      }
      StartProcessing(name, o.smooth, o.baseline, o.window, o.polyorder, o.algorithms[0], batchSaveData, running);
      queueIndex := queueIndex + 1;
      return None;
    }

    /** The step every handler ends with once its thread is dropped: the next
        file of the batch, or the end of the batch. */
    method ContinueQueue() returns (raised: Option<Error>)
      requires thread.None? && currentFile.None?
      modifies this
      ensures ContinuedFrom(old(BatchState()), old(launched), raised)
      ensures !Pending(old(BatchState())) ==> algorithms == old(algorithms) && algorithmIndex == old(algorithmIndex) && dualResults == old(dualResults)
    {
      if |queue| > 0 && queueIndex < |queue| {
        raised := ProcessNextInQueue(false);
      } else {
        var _, _ := FinishQueue();
        raised := None;
      }
    }

    /** `process_file` for a file without a stored result: nothing while the
        held thread runs or when the options dialog is refused; otherwise the
        algorithm list is reset and the first algorithm starts, saving data.
        A file processed before only has its stored result shown, which
        leaves this manager as it was. */
    method ProcessFile(name: string, alreadyProcessed: bool, running: bool, options: Option<Options>)
      returns (raised: Option<Error>)
      modifies this
      ensures alreadyProcessed || (old(thread).Some? && running) || options.None? ==>
        thread == old(thread) && launched == old(launched) && algorithms == old(algorithms) && raised.None?
      ensures !alreadyProcessed && !(old(thread).Some? && running) && options.Some? ==>
        algorithms == options.value.algorithms && algorithmIndex == 0 && dualResults == [] &&
        (|options.value.algorithms| == 0 ==> raised == Some(IndexError) && launched == old(launched)) &&
        (|options.value.algorithms| > 0 ==>
          var o := options.value;
          var run := Run(name, o.smooth, o.baseline, o.window, o.polyorder, o.algorithms[0], true, false);
          raised.None? && thread == Some(run) && currentFile == Some(name) && launched == old(launched) + [run])
      ensures BatchState() == old(BatchState())
    {
      if alreadyProcessed || (thread.Some? && running) || options.None? {
        return None;
      }
      var o := options.value;
      algorithms := o.algorithms;
      algorithmIndex := 0;
      dualResults := [];
      if |o.algorithms| == 0 {
        return Some(IndexError);
      }
      StartProcessing(name, o.smooth, o.baseline, o.window, o.polyorder, o.algorithms[0], true, running);
      return None;
    }

    /** `process_selected_files`: nothing for an empty selection or while the
        held thread runs; otherwise the queue becomes the unprocessed selected
        files, and the batch starts once both dialogs are accepted. A
        refused first dialog empties the queue; a refused second one empties
        it too but keeps the save flags chosen in the first. */
    method ProcessSelectedFiles(selected: seq<string>, processed: string -> bool, running: bool,
                                batchChoice: Option<(bool, bool)>, options: Option<Options>)
      returns (raised: Option<Error>)
      modifies this
      ensures |selected| == 0 || (old(thread).Some? && running) ==>
        BatchState() == old(BatchState()) && launched == old(launched) && raised.None?
      ensures |selected| > 0 && !(old(thread).Some? && running) && (|Unprocessed(selected, processed)| == 0 || batchChoice.None?) ==>
        queue == [] && batchSaveData == old(batchSaveData) && batchSaveStatistics == old(batchSaveStatistics) &&
        launched == old(launched) && raised.None?
      ensures |selected| > 0 && !(old(thread).Some? && running) && |Unprocessed(selected, processed)| > 0 && batchChoice.Some? ==>
        batchSaveData == batchChoice.value.0 && batchSaveStatistics == batchChoice.value.1
      ensures |selected| > 0 && !(old(thread).Some? && running) && |Unprocessed(selected, processed)| > 0 && batchChoice.Some? && options.None? ==>
        queue == [] && launched == old(launched) && raised.None?
      ensures |selected| > 0 && !(old(thread).Some? && running) && |Unprocessed(selected, processed)| > 0 && batchChoice.Some? && options.Some? ==>
        queue == Unprocessed(selected, processed) && queueOptions == options &&
        (|options.value.algorithms| > 0 ==>
          Startable(BatchState().(index := 0)) && raised.None? && queueIndex == 1 &&
          launched == old(launched) + [QueueRun(BatchState().(index := 0))]) &&
        (|options.value.algorithms| == 0 ==> raised == Some(IndexError) && queueIndex == 0 && launched == old(launched))
    {
      if |selected| == 0 || (thread.Some? && running) {
        return None;
      }
      var q: seq<string> := [];
      for i := 0 to |selected|
        invariant q == Unprocessed(selected[..i], processed)
      {
        assert selected[..i + 1][..i] == selected[..i];
        if !processed(selected[i]) {
          q := q + [selected[i]];
        }
      }
      assert selected[..|selected|] == selected;
      queue := q;
      if |queue| == 0 {
        return None;
      }
      if batchChoice.None? {
        queue := [];
        return None;
      }
      batchSaveData, batchSaveStatistics := batchChoice.value.0, batchChoice.value.1;
      if options.None? {
        queue := [];
        return None;
      }
      queueOptions := options;
      queueIndex := 0;
      raised := ProcessNextInQueue(running);
    }

    /** `_process_next_algorithm`: the same file again with the next
        algorithm and the finished thread's parameters. Reading those
        parameters through an absent thread raises AttributeError, and an
        index past the list IndexError. */
    method ProcessNextAlgorithm() returns (raised: Option<Error>)
      modifies this
      ensures old(currentFile).None? ==> thread == old(thread) && launched == old(launched) && raised.None?
      ensures old(currentFile).Some? && old(thread).None? ==>
        raised == Some(AttributeError) && thread == old(thread) && launched == old(launched)
      ensures old(currentFile).Some? && old(thread).Some? && algorithmIndex >= |algorithms| ==>
        raised == Some(IndexError) && launched == old(launched)
      ensures old(currentFile).Some? && old(thread).Some? && algorithmIndex < |algorithms| ==>
        var t := old(thread).value;
        var run := Run(old(currentFile).value, t.smooth, t.baseline, t.window, t.polyorder, algorithms[algorithmIndex], t.saveData, false);
        raised.None? && thread == Some(run) && currentFile == old(currentFile) && launched == old(launched) + [run]
      ensures currentFile == old(currentFile)
      ensures BatchState() == old(BatchState())
      ensures algorithms == old(algorithms) && algorithmIndex == old(algorithmIndex) && dualResults == old(dualResults)
    {
      if currentFile.None? {
        return None;
      }
      if thread.None? {
        return Some(AttributeError);
      }
      var t := thread.value;
      if algorithmIndex >= |algorithms| {
        return Some(IndexError);
      }
      var next := algorithms[algorithmIndex];
      thread := None;
      StartProcessing(currentFile.value, t.smooth, t.baseline, t.window, t.polyorder, next, t.saveData, false);
      return None;
    }

    /** `_finalize_dual_processing`: every stored result is named after the
        file's base name and its position, saved into the sequence's folder
        when data are saved outside statistics-only mode, and listed outside
        statistics-only mode unless already shown; then the per-file state is
        cleared and the batch goes on. */
    method FinalizeDual(hasFrame: bool, listedBefore: seq<string>)
      returns (files: seq<CleanFile>, listedAfter: seq<string>, raised: Option<Error>)
      modifies this
      ensures old(currentFile).None? ==>
        files == [] && listedAfter == listedBefore && raised.None? && thread == old(thread) && currentFile == old(currentFile) &&
        launched == old(launched) && BatchState() == old(BatchState()) && dualResults == old(dualResults) &&
        algorithms == old(algorithms) && algorithmIndex == old(algorithmIndex)
      ensures old(currentFile).Some? ==>
        var statisticsOnly := |old(queue)| > 0 && !old(batchSaveData) && old(batchSaveStatistics);
        var save := !statisticsOnly && old(thread).Some? && old(thread).value.saveData;
        files == FinalFiles(old(dualResults), BaseName(old(currentFile).value), save) &&
        listedAfter == (if statisticsOnly then listedBefore else Listed(listedBefore, Names(files))) &&
        ContinuedFrom(old(BatchState()), old(launched), raised) &&
        (!Pending(old(BatchState())) ==> dualResults == [] && algorithms == [] && algorithmIndex == 0)
    {
      if currentFile.None? {
        return [], listedBefore, None;
      }
      files, listedAfter, raised := FinalizeCurrent(hasFrame, listedBefore);
    }

    /** The body of `_finalize_dual_processing` once a file is current. */
    method FinalizeCurrent(hasFrame: bool, listedBefore: seq<string>)
      returns (files: seq<CleanFile>, listedAfter: seq<string>, raised: Option<Error>)
      requires currentFile.Some?
      modifies this
      ensures
        var statisticsOnly := |old(queue)| > 0 && !old(batchSaveData) && old(batchSaveStatistics);
        var save := !statisticsOnly && old(thread).Some? && old(thread).value.saveData;
        files == FinalFiles(old(dualResults), BaseName(old(currentFile).value), save) &&
        listedAfter == (if statisticsOnly then listedBefore else Listed(listedBefore, Names(files))) &&
        ContinuedFrom(old(BatchState()), old(launched), raised) &&
        (!Pending(old(BatchState())) ==> dualResults == [] && algorithms == [] && algorithmIndex == 0)
    {
      ghost var b := BatchState();
      ghost var before := launched;
      var statisticsOnly := StatisticsOnly();
      var save := !statisticsOnly && thread.Some? && thread.value.saveData;
      files, listedAfter := NameResults(dualResults, currentFile.value, hasFrame, statisticsOnly, save, listedBefore);
      dualResults := [];
      algorithms := [];
      algorithmIndex := 0;
      thread := None;
      currentFile := None;
      assert BatchState() == b && launched == before;
      raised := ContinueQueue();
      assert ContinuedFrom(b, before, raised);
    }

    /** `on_processing_finished`, its bookkeeping part. With several
        algorithms the result is stored under the thread's algorithm and the
        next algorithm starts, or, after the last, the results are finalised.
        With one algorithm the thread is dropped and the batch goes on. */
    method OnProcessingFinished(result: AlgorithmResult, hasFrame: bool, listedBefore: seq<string>)
      returns (files: seq<CleanFile>, listedAfter: seq<string>, raised: Option<Error>)
      modifies this
      ensures |old(algorithms)| > 1 && old(algorithmIndex) + 1 < |old(algorithms)| ==>
        algorithmIndex == old(algorithmIndex) + 1 && dualResults == Stored(old(dualResults), old(thread), result) &&
        files == [] && listedAfter == listedBefore && BatchState() == old(BatchState()) &&
        currentFile == old(currentFile) && algorithms == old(algorithms) &&
        raised == (if old(currentFile).Some? && old(thread).None? then Some(AttributeError) else None) &&
        (old(currentFile).Some? && old(thread).Some? ==>
          var t := old(thread).value;
          var run := Run(old(currentFile).value, t.smooth, t.baseline, t.window, t.polyorder, old(algorithms)[old(algorithmIndex) + 1], t.saveData, false);
          thread == Some(run) && launched == old(launched) + [run]) &&
        (!(old(currentFile).Some? && old(thread).Some?) ==> thread == old(thread) && launched == old(launched))
      ensures |old(algorithms)| > 1 && old(algorithmIndex) + 1 >= |old(algorithms)| && old(currentFile).Some? ==>
        var statisticsOnly := |old(queue)| > 0 && !old(batchSaveData) && old(batchSaveStatistics);
        var save := !statisticsOnly && old(thread).Some? && old(thread).value.saveData;
        files == FinalFiles(Stored(old(dualResults), old(thread), result), BaseName(old(currentFile).value), save) &&
        listedAfter == (if statisticsOnly then listedBefore else Listed(listedBefore, Names(files))) &&
        ContinuedFrom(old(BatchState()), old(launched), raised) &&
        (!Pending(old(BatchState())) ==> dualResults == [] && algorithms == [] && algorithmIndex == 0)
      ensures |old(algorithms)| > 1 && old(algorithmIndex) + 1 >= |old(algorithms)| && old(currentFile).None? ==>
        files == [] && listedAfter == listedBefore && raised.None? && thread == old(thread) && currentFile.None? &&
        launched == old(launched) && BatchState() == old(BatchState()) &&
        dualResults == Stored(old(dualResults), old(thread), result) && algorithmIndex == old(algorithmIndex) + 1
      ensures |old(algorithms)| <= 1 ==> files == [] && listedAfter == listedBefore && ContinuedFrom(old(BatchState()), old(launched), raised)
    {
      if |algorithms| > 1 {
        dualResults := Stored(dualResults, thread, result);
        algorithmIndex := algorithmIndex + 1;
        if algorithmIndex < |algorithms| {
          raised := ProcessNextAlgorithm();
          return [], listedBefore, raised;
        }
        files, listedAfter, raised := FinalizeDual(hasFrame, listedBefore);
        return;
      }
      thread := None;
      currentFile := None;
      raised := ContinueQueue();
      return [], listedBefore, raised;
    }

    /** `on_processing_error`: the thread is dropped; a batch goes on with
        its next file or finishes, and a single run just resets the save flags. */
    method OnProcessingError() returns (raised: Option<Error>)
      modifies this
      ensures |old(queue)| > 0 ==> ContinuedFrom(old(BatchState()), old(launched), raised)
      ensures |old(queue)| == 0 ==>
        thread.None? && currentFile.None? && queue == [] && queueIndex == old(queueIndex) && queueOptions == old(queueOptions) &&
        batchSaveData && !batchSaveStatistics && launched == old(launched) && raised.None?
    {
      thread := None;
      currentFile := None;
      if |queue| > 0 {
        raised := ContinueQueue();
      } else {
        batchSaveData := true;
        batchSaveStatistics := false;
        raised := None;
      }
    }
  }

  // ------------------------------------------------------------ statistics

  /** One exported statistics row; the difference is printed with six
      decimals, which this model does not render. */
  datatype Row = Row(file: string, points: int, dyes: string, smooth: string, baseline: string, algorithm: string, difference: Option<real>)

  /** An entry counts as processed when any processing field was recorded. */
  predicate IsProcessed(i: DataManagement.SequenceInfo) {
    i.smooth.Some? || i.baseline.Some? || i.algorithm.Some? || i.difference.Some?
  }

  /** Yes / No / not recorded. */
  function TriState(b: Option<bool>): string {
    match b
    case Some(true) => "Да"
    case Some(false) => "Нет"
    case None => "—"
  }

  function AlgorithmLabel(a: Option<string>): string {
    if a == Some("estimate_crosstalk_2") then "Метод 2 (новый)"
    else if a == Some("estimate_crosstalk") then "Метод 1 (старый)"
    else "—"
  }

  /** `", ".join(names)` */
  function JoinNames(names: seq<string>): string {
    if |names| == 0 then ""
    else if |names| == 1 then names[0]
    else JoinNames(names[..|names| - 1]) + ", " + names[|names| - 1]
  }

  function ExportRow(base: string, i: DataManagement.SequenceInfo): Row {
    var dyes := if i.dyeNames.Some? then i.dyeNames.value else [];
    Row(base,
        if i.dataPoints.Some? then i.dataPoints.value else 0,
        if |dyes| > 0 then JoinNames(dyes) else "—",
        TriState(i.smooth), TriState(i.baseline), AlgorithmLabel(i.algorithm), i.difference)
  }

  /** The rows for the entries listed in `keys`, processed ones only, in that order. */
  function ExportedRows(info: map<string, DataManagement.SequenceInfo>, keys: seq<string>): seq<Row>
    requires forall k :: k in keys ==> k in info
  {
    if |keys| == 0 then []
    else
      var last := keys[|keys| - 1];
      ExportedRows(info, keys[..|keys| - 1]) + (if IsProcessed(info[last]) then [ExportRow(last, info[last])] else [])
  }

  /** A row is exported for a base name exactly when its entry was processed,
      and the flags read "Да", "Нет", or "—" for a flag never recorded. */
  lemma {:induction false} ExportedRowsMembers(info: map<string, DataManagement.SequenceInfo>, keys: seq<string>)
    requires forall k :: k in keys ==> k in info
    ensures forall b :: (exists r :: r in ExportedRows(info, keys) && r.file == b) <==> b in keys && IsProcessed(info[b])
    ensures forall r :: r in ExportedRows(info, keys) ==> r.file in info && r == ExportRow(r.file, info[r.file])
    ensures forall r :: r in ExportedRows(info, keys) ==>
      (r.smooth == "—" <==> info[r.file].smooth.None?) && (r.baseline == "—" <==> info[r.file].baseline.None?)
    ensures |ExportedRows(info, keys)| <= |keys|
  {
    if |keys| > 0 {
      var front := keys[..|keys| - 1];
      var last := keys[|keys| - 1];
      assert forall k :: k in front ==> k in keys;
      ExportedRowsMembers(info, front);
      assert forall x :: x in keys <==> x in front || x == last by {
        assert keys == front + [last];
      }
      if IsProcessed(info[last]) {
        assert ExportRow(last, info[last]).file == last;
      }
    }
  }

  /** String order as `sorted` compares keys. */
  predicate Less(a: string, b: string)
    decreases |a|
  {
    |b| > 0 && (|a| == 0 || a[0] < b[0] || (a[0] == b[0] && Less(a[1..], b[1..])))
  }

  /** The file statistics are written to: the file count and time stamp in its name. */
  function BatchStatisticsFile(count: nat, stamp: string): string {
    Join("statistics", "statistics_" + NatToString(count) + "_" + stamp + ".csv")
  }

  /** `_save_batch_statistics`: the rows of the processed entries in the
      order of their sorted base names, and how many were written. */
  method SaveBatchStatistics(info: map<string, DataManagement.SequenceInfo>, sortedKeys: seq<string>, fileCount: nat, stamp: string)
    returns (path: string, rows: seq<Row>, exported: nat)
    requires forall k :: k in sortedKeys <==> k in info
    requires forall a, b :: 0 <= a < b < |sortedKeys| ==> Less(sortedKeys[a], sortedKeys[b])
    ensures path == BatchStatisticsFile(fileCount, stamp)
    ensures rows == ExportedRows(info, sortedKeys) && exported == |rows|
  {
    path := BatchStatisticsFile(fileCount, stamp);
    rows := [];
    exported := 0;
    for i := 0 to |sortedKeys|
      invariant rows == ExportedRows(info, sortedKeys[..i]) && exported == |rows|
    {
      assert sortedKeys[..i + 1][..i] == sortedKeys[..i];
      var entry := info[sortedKeys[i]];
      if IsProcessed(entry) {
        rows := rows + [ExportRow(sortedKeys[i], entry)];
        exported := exported + 1;
      }
    }
    assert sortedKeys[..|sortedKeys|] == sortedKeys;
  }
}
