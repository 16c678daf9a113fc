/** app/api/processor.py: the batch API that cleans sequences with one or
    both algorithms and collects one statistics record per sequence and
    algorithm. The cleaning call `deleteCrossTalk(df, rem_base=True,
    algorithm=<name>, return_matrix=True)` is the function `run` given to the
    model (the shown `deleteCrossTalk` accepts neither keyword; see
    `ShownCleanerGivesNothing`). The worker pool's completion order is given
    as a permutation of the sequence indices. */
module ProcessorApi {
  import opened PyCore
  import opened PyStr
  import opened Frames
  import opened Matrix
  import AppUtils
  import SequenceApi

  // ------------------------------------------------------- algorithm choice

  /** The algorithm list of `process_sequences`: -1 is both, 1 and 2 are
      themselves, anything else is a ValueError raised before any work. */
  function Algorithms(alg: int): (r: Result<seq<int>>)
    ensures r.Ok? <==> alg == -1 || alg == 1 || alg == 2
    ensures r.Err? ==> r.error == ValueError
    ensures r.Ok? ==> 0 < |r.value| <= 2 && (forall k :: 0 <= k < |r.value| ==> r.value[k] == 1 || r.value[k] == 2)
    ensures r.Ok? ==> Distinct(r.value) && (alg in r.value || alg == -1)
  {
    if alg == -1 then Ok([1, 2])
    else if alg == 1 then Ok([1])
    else if alg == 2 then Ok([2])
    else Err(ValueError)
  }

  /** The estimator each algorithm number names. */
  function AlgorithmName(a: int): string
    requires a == 1 || a == 2
  {
    if a == 1 then "estimate_crosstalk" else "estimate_crosstalk_2"
  }

  // ------------------------------------------------------- one sequence

  /** One row of the statistics table. */
  datatype StatRecord = StatRecord(name: string, algorithm: int, difference: Option<real>, dyeNames: Option<seq<string>>)

  /** What `process_single_sequence` reads of a sequence. */
  datatype SequenceValue = SequenceValue(frame: CellTable, name: string, matrix: Option<Mat4>, dyeNames: Option<seq<string>>)

  function Snapshot(s: SequenceApi.Sequence): SequenceValue
    reads s, s.frame
  {
    SequenceValue(s.frame.grid, s.name, s.matrix, s.dyeNames)
  }

  /** The loop state after some algorithms: the records, the cleaned frames,
      and the last matrix `W` (the local variable persists across iterations,
      and reading it before any assignment is an UnboundLocalError). */
  datatype Outcome = Outcome(stats: seq<StatRecord>, cleaned: seq<Table>, w: Option<Mat4>)

  /** One iteration of the algorithm loop on the state so far. An algorithm
      other than 1 or 2 runs nothing and reuses the previous `W`. */
  function Step(run: (CellTable, string) -> Result<(Table, Mat4)>, s: SequenceValue, a: int, o: Outcome): (r: Result<Outcome>)
    ensures r.Ok? ==> |r.value.stats| == |o.stats| + 1 && r.value.stats[..|o.stats|] == o.stats && r.value.w.Some?
    ensures r.Ok? ==> |r.value.cleaned| == |o.cleaned| + (if a == 1 || a == 2 then 1 else 0)
    ensures r.Err? ==> ((a == 1 || a == 2) && run(s.frame, AlgorithmName(a)).Err?) || (a != 1 && a != 2 && o.w.None? && r.error == NameError)
  {
    var step: Result<(seq<Table>, Option<Mat4>)> :=
      if a == 1 || a == 2 then
        (match run(s.frame, AlgorithmName(a))
         case Err(e) => Err(e)
         case Ok(res) => Ok((o.cleaned + [res.0], Some(res.1))))
      else Ok((o.cleaned, o.w));
    match step
    case Err(e) => Err(e)
    case Ok(st) =>
      if st.1.None? then Err(NameError)
      else Ok(Outcome(o.stats + [StatRecord(s.name, a, AppUtils.MatrixDifference(st.1, s.matrix), s.dyeNames)], st.0, st.1))
  }

  /** The first `k` iterations of the algorithm loop. */
  function Applied(run: (CellTable, string) -> Result<(Table, Mat4)>, s: SequenceValue, algorithms: seq<int>, k: nat): (r: Result<Outcome>)
    requires k <= |algorithms|
    ensures r.Ok? ==> |r.value.stats| == k && |r.value.cleaned| <= k
  {
    if k == 0 then Ok(Outcome([], [], None))
    else
      match Applied(run, s, algorithms, k - 1)
      case Err(e) => Err(e)
      case Ok(o) => Step(run, s, algorithms[k - 1], o)
  }

  /** After `k` iterations without an exception there is one record per
      algorithm, named after the sequence and keyed by the algorithm number,
      with a matrix difference exactly when the sequence has a reference
      matrix; there is one cleaned frame per algorithm 1 or 2. */
  lemma {:induction false} AppliedShape(run: (CellTable, string) -> Result<(Table, Mat4)>, s: SequenceValue, algorithms: seq<int>, k: nat)
    requires k <= |algorithms| && Applied(run, s, algorithms, k).Ok?
    ensures var o := Applied(run, s, algorithms, k).value;
      |o.stats| == k && |o.cleaned| <= k && (k > 0 ==> o.w.Some?) &&
      (forall i :: 0 <= i < k ==>
        o.stats[i].name == s.name && o.stats[i].algorithm == algorithms[i] && o.stats[i].dyeNames == s.dyeNames &&
        (o.stats[i].difference.Some? <==> s.matrix.Some?)) &&
      ((forall i :: 0 <= i < k ==> algorithms[i] == 1 || algorithms[i] == 2) ==> |o.cleaned| == k)
  {
    if k > 0 {
      AppliedShape(run, s, algorithms, k - 1);
      var o := Applied(run, s, algorithms, k - 1).value;
      var o' := Applied(run, s, algorithms, k).value;
      assert o' == Step(run, s, algorithms[k - 1], o).value;
      assert o'.stats[k - 1].difference == AppUtils.MatrixDifference(o'.w, s.matrix);
      assert o'.stats[..k - 1] == o.stats;
    }
  }

  /** The records `process_single_sequence` returns: all of them, or none
      when anything raised. */
  function SingleStats(run: (CellTable, string) -> Result<(Table, Mat4)>, s: SequenceValue, algorithms: seq<int>): seq<StatRecord> {
    match Applied(run, s, algorithms, |algorithms|)
    case Ok(o) => o.stats
    case Err(_) => []
  }

  /** The file name a cleaned frame is saved under: `<save_path>/<name>_<alg>.csv`. */
  function SavePath(savePath: string, name: string, algorithm: int): string {
    savePath + "/" + name + "_" + IntToString(algorithm) + ".csv"
  }

  /** The files written when saving is on: the i-th cleaned frame under the
      i-th algorithm number. */
  function SavedFiles(savePath: string, name: string, algorithms: seq<int>, cleaned: seq<Table>): (r: seq<(string, Table)>)
    requires |cleaned| <= |algorithms|
    ensures |r| == |cleaned|
    ensures forall i :: 0 <= i < |r| ==> r[i] == (SavePath(savePath, name, algorithms[i]), cleaned[i])
  {
    seq(|cleaned|, i requires 0 <= i < |cleaned| => (SavePath(savePath, name, algorithms[i]), cleaned[i]))
  }

  /** With the `deleteCrossTalk` of app/utils/seq_utils.py, which has no
      `algorithm` or `return_matrix` parameter, every call raises TypeError
      (and an algorithm list that starts with another number reads `W`
      unassigned), so every sequence yields no records. */
  lemma ShownCleanerGivesNothing(s: SequenceValue, algorithms: seq<int>)
    ensures SingleStats((t: CellTable, n: string) => Err(TypeError), s, algorithms) == []
  {
    var run := (t: CellTable, n: string) => Err(TypeError);
    if |algorithms| > 0 {
      AppliedFailsAfterFirst(run, s, algorithms, |algorithms|);
    }
  }

  lemma {:induction false} AppliedFailsAfterFirst(run: (CellTable, string) -> Result<(Table, Mat4)>, s: SequenceValue, algorithms: seq<int>, k: nat)
    requires 0 < k <= |algorithms|
    requires forall t, n :: run(t, n).Err?
    ensures Applied(run, s, algorithms, k).Err?
  {
    if k > 1 {
      AppliedFailsAfterFirst(run, s, algorithms, k - 1);
    } else {
      assert run(s.frame, "estimate_crosstalk").Err?;
      assert run(s.frame, "estimate_crosstalk_2").Err?;
    }
  }

  class Processor {
    var needSave: bool
    var needStatistics: bool
    var savePath: string
    var statisticsPath: string

    /** `Processor()` with its defaults. */
    constructor ()
      ensures !needSave && !needStatistics
      ensures savePath == "processed_sequences" && statisticsPath == "statistics"
    {
      needSave := false;
      needStatistics := false;
      savePath := "processed_sequences";
      statisticsPath := "statistics";
    }

    /** `process_single_sequence`: one record per algorithm, in order, and
      the cleaned frames saved when `need_save` is set; an exception anywhere
      gives the empty list and writes nothing. */
    method ProcessSingleSequence(run: (CellTable, string) -> Result<(Table, Mat4)>, s: SequenceValue, algorithms: seq<int>)
      returns (stats: seq<StatRecord>, written: seq<(string, Table)>)
      ensures stats == SingleStats(run, s, algorithms)
      ensures Applied(run, s, algorithms, |algorithms|).Ok? && needSave ==>
        written == SavedFiles(savePath, s.name, algorithms, Applied(run, s, algorithms, |algorithms|).value.cleaned)
      ensures Applied(run, s, algorithms, |algorithms|).Err? || !needSave ==> written == []
    {
      var fileStatistics: seq<StatRecord> := [];
      var clearData: seq<Table> := [];
      var w: Option<Mat4> := None;
      written := [];
      for k := 0 to |algorithms|
        invariant Applied(run, s, algorithms, k) == Ok(Outcome(fileStatistics, clearData, w))
      {
        ghost var o := Outcome(fileStatistics, clearData, w);
        assert Applied(run, s, algorithms, k + 1) == Step(run, s, algorithms[k], o);
        var a := algorithms[k];
        if a == 1 || a == 2 {
          var res := run(s.frame, AlgorithmName(a));
          if res.Err? {
            AppliedErrSticks(run, s, algorithms, k + 1);
            return [], [];
          }
          clearData := clearData + [res.value.0];
          w := Some(res.value.1);
        }
        if w.None? {
          AppliedErrSticks(run, s, algorithms, k + 1);
          return [], [];
        }
        var difference := AppUtils.MatrixDifference(w, s.matrix);
        fileStatistics := fileStatistics + [StatRecord(s.name, a, difference, s.dyeNames)];
      }
      if needSave {
        written := SaveCleaned(s.name, algorithms, clearData);
      }
      return fileStatistics, written;
    }

    /** The `need_save` block: the i-th cleaned frame is written under the
        i-th algorithm number, in order. */
    method SaveCleaned(name: string, algorithms: seq<int>, clearData: seq<Table>) returns (written: seq<(string, Table)>)
      requires |clearData| <= |algorithms|
      ensures written == SavedFiles(savePath, name, algorithms, clearData)
    {
      written := [];
      for i := 0 to |clearData|
        invariant written == SavedFiles(savePath, name, algorithms, clearData[..i])
      {
        written := written + [(SavePath(savePath, name, algorithms[i]), clearData[i])];
      }
      assert clearData[..|clearData|] == clearData;
    }
  }

  /** Once a prefix of the algorithm loop fails, the whole loop fails. */
  lemma {:induction false} AppliedErrSticks(run: (CellTable, string) -> Result<(Table, Mat4)>, s: SequenceValue, algorithms: seq<int>, k: nat)
    requires k <= |algorithms| && Applied(run, s, algorithms, k).Err?
    ensures Applied(run, s, algorithms, |algorithms|).Err?
    decreases |algorithms| - k
  {
    if k < |algorithms| {
      AppliedErrSticks(run, s, algorithms, k + 1);
    }
  }

  // ------------------------------------------------------- many sequences

  /** The concatenation of a list of lists (`statistics.extend` in a loop). */
  function Flatten<T>(ls: seq<seq<T>>): (r: seq<T>)
  {
    if |ls| == 0 then [] else Flatten(ls[..|ls| - 1]) + ls[|ls| - 1]
  }

  /** The indices 0 .. n-1. */
  function Range(n: nat): (r: seq<nat>)
    ensures |r| == n && forall i :: 0 <= i < n ==> r[i] == i
  {
    seq(n, i requires 0 <= i < n => i)
  }

  /** `order` lists every index below n exactly once. */
  predicate IsPermutation(order: seq<nat>, n: nat) {
    multiset(order) == multiset(Range(n))
  }

  /** The lists taken in the given order. */
  function Reordered<T>(ls: seq<seq<T>>, order: seq<nat>): (r: seq<seq<T>>)
    requires forall k :: 0 <= k < |order| ==> order[k] < |ls|
    ensures |r| == |order| && forall k :: 0 <= k < |order| ==> r[k] == ls[order[k]]
  {
    seq(|order|, k requires 0 <= k < |order| => ls[order[k]])
  }

  lemma {:induction false} FlattenAppend<T>(a: seq<seq<T>>, b: seq<seq<T>>)
    ensures Flatten(a + b) == Flatten(a) + Flatten(b)
    decreases |b|
  {
    if |b| == 0 {
      assert a + b == a;
    } else {
      var b', y := b[..|b| - 1], b[|b| - 1];
      SnocParts(a, b);
      FlattenSnoc(a + b', y);
      FlattenAppend(a, b');
      FlattenSnoc(b', y);
    }
  }

  /** Removing the j-th element takes one copy of it out of the multiset. */
  lemma MultisetCancel<T>(a: multiset<T>, b: multiset<T>, x: T)
    requires a + multiset{x} == b + multiset{x}
    ensures a == b
  {
    assert a == (a + multiset{x}) - multiset{x};
    assert b == (b + multiset{x}) - multiset{x};
  }

  lemma MultisetRemove<T>(s: seq<T>, j: nat)
    requires j < |s|
    ensures multiset(s) == multiset(s[..j] + s[j + 1..]) + multiset{s[j]}
  {
    assert s == s[..j] + [s[j]] + s[j + 1..];
  }

  /** The concatenation with the j-th list taken out. */
  lemma FlattenRemove<T>(b: seq<seq<T>>, j: nat)
    requires j < |b|
    ensures multiset(Flatten(b)) == multiset(Flatten(b[..j] + b[j + 1..])) + multiset(b[j])
  {
    FlattenSplit(b, j);
    FlattenAppend(b[..j], b[j + 1..]);
    MultisetMiddle(Flatten(b[..j]), b[j], Flatten(b[j + 1..]));
  }

  /** The concatenation, cut around its j-th list. */
  lemma FlattenSplit<T>(b: seq<seq<T>>, j: nat)
    requires j < |b|
    ensures Flatten(b) == Flatten(b[..j]) + b[j] + Flatten(b[j + 1..])
  {
    Splice(b, j);
    FlattenAppend(b[..j] + [b[j]], b[j + 1..]);
    FlattenSnoc(b[..j], b[j]);
  }

  lemma SnocParts<T>(a: seq<T>, b: seq<T>)
    requires |b| > 0
    ensures b == b[..|b| - 1] + [b[|b| - 1]] && a + b == (a + b[..|b| - 1]) + [b[|b| - 1]]
  {
  }

  lemma Splice<T>(b: seq<T>, j: nat)
    requires j < |b|
    ensures b == b[..j] + [b[j]] + b[j + 1..]
  {
  }

  lemma FlattenSnoc<T>(a: seq<seq<T>>, x: seq<T>)
    ensures Flatten(a + [x]) == Flatten(a) + x
  {
    assert (a + [x])[..|a|] == a;
  }

  lemma MultisetMiddle<T>(f1: seq<T>, x: seq<T>, f2: seq<T>)
    ensures multiset(f1 + x + f2) == multiset(f1 + f2) + multiset(x)
  {
  }

  /** The elements of a concatenation depend only on which lists are
      concatenated, not on their order. */
  lemma {:induction false} FlattenMultiset<T>(a: seq<seq<T>>, b: seq<seq<T>>)
    requires multiset(a) == multiset(b)
    ensures multiset(Flatten(a)) == multiset(Flatten(b))
    decreases |a|
  {
    if |a| == 0 {
      assert |b| == |multiset(b)| == 0;
    } else {
      var x := a[|a| - 1];
      var a' := a[..|a| - 1];
      assert x in multiset(b) by { assert x in a; }
      var j :| 0 <= j < |b| && b[j] == x;
      var rest := b[..j] + b[j + 1..];
      MultisetRemove(a, |a| - 1);
      MultisetRemove(b, j);
      assert a[..|a| - 1] + a[|a|..] == a';
      MultisetCancel(multiset(a'), multiset(rest), x);
      FlattenMultiset(a', rest);
      FlattenRemove(b, j);
    }
  }

  /** The indices 0 .. n-1 are the indices 0 .. n-2 and n-1. */
  lemma RangeSplit(n: nat)
    requires n > 0
    ensures multiset(Range(n)) == multiset(Range(n - 1)) + multiset{(n - 1) as nat}
  {
    assert Range(n) == Range(n - 1) + [n - 1];
  }

  /** Taking the lists in a permuted order keeps the multiset of lists. */
  lemma {:induction false} ReorderedMultiset<T>(ls: seq<seq<T>>, order: seq<nat>)
    requires IsPermutation(order, |ls|)
    ensures forall k :: 0 <= k < |order| ==> order[k] < |ls|
    ensures multiset(Reordered(ls, order)) == multiset(ls)
    decreases |ls|
  {
    var n := |ls|;
    PermutationBounded(order, n);
    if n > 0 {
      var last: nat := n - 1;
      assert last in multiset(Range(n)) by { assert Range(n)[last] == last; }
      var p :| 0 <= p < |order| && order[p] == last;
      var rest := order[..p] + order[p + 1..];
      PermutationWithout(order, n, p);
      var front := ls[..n - 1];
      ReorderedMultiset(front, rest);
      ReorderedRemove(ls, order, p);
      ReorderedPrefix(ls, rest);
      MultisetSnoc(ls);
    }
  }

  /** A permutation of 0 .. n-1 holds only indices below n. */
  lemma PermutationBounded(order: seq<nat>, n: nat)
    requires IsPermutation(order, n)
    ensures forall k :: 0 <= k < |order| ==> order[k] < n
  {
    forall k | 0 <= k < |order| ensures order[k] < n {
      var x := order[k];
      assert x in multiset(order);
      assert x in Range(n);
      var i :| 0 <= i < n && Range(n)[i] == x;
    }
  }

  /** A permutation of 0 .. n-1 with the position of n-1 taken out is a
      permutation of 0 .. n-2. */
  lemma PermutationWithout(order: seq<nat>, n: nat, p: nat)
    requires IsPermutation(order, n) && n > 0 && p < |order| && order[p] == n - 1
    ensures IsPermutation(order[..p] + order[p + 1..], n - 1)
  {
    MultisetRemove(order, p);
    RangeSplit(n);
    MultisetCancel(multiset(order[..p] + order[p + 1..]), multiset(Range(n - 1)), n - 1);
  }

  /** Positions below the last one read the same from the list without it. */
  lemma ReorderedPrefix<T>(ls: seq<seq<T>>, order: seq<nat>)
    requires |ls| > 0 && forall k :: 0 <= k < |order| ==> order[k] < |ls| - 1
    ensures Reordered(ls[..|ls| - 1], order) == Reordered(ls, order)
  {
  }

  lemma MultisetSnoc<T>(s: seq<T>)
    requires |s| > 0
    ensures multiset(s) == multiset(s[..|s| - 1]) + multiset{s[|s| - 1]}
  {
    assert s == s[..|s| - 1] + [s[|s| - 1]];
  }

  /** Taking the lists in order with one position left out. */
  lemma ReorderedRemove<T>(ls: seq<seq<T>>, order: seq<nat>, p: nat)
    requires forall k :: 0 <= k < |order| ==> order[k] < |ls|
    requires p < |order|
    ensures multiset(Reordered(ls, order)) == multiset(Reordered(ls, order[..p] + order[p + 1..])) + multiset{ls[order[p]]}
  {
    var r := Reordered(ls, order);
    MultisetRemove(r, p);
    assert r[..p] + r[p + 1..] == Reordered(ls, order[..p] + order[p + 1..]);
  }

  /** However the workers finish, the gathered statistics hold exactly the
      records of every sequence. */
  lemma GatheredIsUnion<T>(ls: seq<seq<T>>, order: seq<nat>)
    requires IsPermutation(order, |ls|)
    ensures forall k :: 0 <= k < |order| ==> order[k] < |ls|
    ensures multiset(Flatten(Reordered(ls, order))) == multiset(Flatten(ls))
  {
    ReorderedMultiset(ls, order);
    FlattenMultiset(Reordered(ls, order), ls);
  }

  /** One more worker finishing appends its records to those gathered. */
  lemma GatherStep<T>(ls: seq<seq<T>>, order: seq<nat>, k: nat)
    requires forall k :: 0 <= k < |order| ==> order[k] < |ls|
    requires k < |order|
    ensures Flatten(Reordered(ls, order[..k + 1])) == Flatten(Reordered(ls, order[..k])) + ls[order[k]]
  {
    var a := Reordered(ls, order[..k + 1]);
    assert a[..k] == Reordered(ls, order[..k]);
  }

  /** Where the statistics table is written: the number of sequences and the
      time stamp `%Y%m%d_%H%M%S` (a parameter here) in the name. */
  function StatisticsFile(statisticsPath: string, count: nat, stamp: string): string {
    statisticsPath + "/statistics_" + IntToString(count) + "_" + stamp + ".csv"
  }

  /** `process_sequences(sequences, alg)`: checks `alg`, runs every sequence
      and gathers the records in the order the workers finish. */
  method ProcessSequences(p: Processor, run: (CellTable, string) -> Result<(Table, Mat4)>,
                          sequences: seq<SequenceValue>, alg: int, order: seq<nat>, stamp: string)
    returns (r: Result<seq<StatRecord>>, statisticsFile: Option<string>)
    requires IsPermutation(order, |sequences|)
    ensures r.Ok? <==> Algorithms(alg).Ok?
    ensures r.Err? ==> r.error == ValueError && statisticsFile.None?
    ensures r.Ok? ==> statisticsFile == if p.needStatistics then Some(StatisticsFile(p.statisticsPath, |sequences|, stamp)) else None
    ensures r.Ok? ==>
      var perSequence := seq(|sequences|, i requires 0 <= i < |sequences| => SingleStats(run, sequences[i], Algorithms(alg).value));
      (forall k :: 0 <= k < |order| ==> order[k] < |sequences|) &&
      r.value == Flatten(Reordered(perSequence, order)) &&
      multiset(r.value) == multiset(Flatten(perSequence))
  {
    var algorithms := Algorithms(alg);
    if algorithms.Err? {
      return Err(ValueError), None;
    }
    ghost var perSequence := seq(|sequences|, i requires 0 <= i < |sequences| => SingleStats(run, sequences[i], algorithms.value));
    GatheredIsUnion(perSequence, order);
    var statistics: seq<StatRecord> := [];
    for k := 0 to |order|
      invariant statistics == Flatten(Reordered(perSequence, order[..k]))
    {
      var stats, _ := p.ProcessSingleSequence(run, sequences[order[k]], algorithms.value);
      GatherStep(perSequence, order, k);
      statistics := statistics + stats;
    }
    assert order[..|order|] == order;
    statisticsFile := None;
    if p.needStatistics {
      statisticsFile := Some(StatisticsFile(p.statisticsPath, |sequences|, stamp));
    }
    return Ok(statistics), statisticsFile;
  }
}
