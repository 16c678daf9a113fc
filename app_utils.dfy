/** app/utils/utils.py: the pair-plot layout, Savitzky-Golay smoothing of every
    channel, and the mean absolute difference between two crosstalk matrices. */
module AppUtils {
  import opened PyCore
  import opened Frames
  import opened Matrix
  import opened Kernels

  // ---------------------------------------------------------------- makeFig

  /** Subplot `axs[row, col]` shows channel j against channel i, for the
      samples at positions `first` up to (not including) `last`. */
  datatype Placement = Placement(row: nat, col: nat, i: nat, j: nat, first: int, last: int)

  /** Python's `int(x)`: truncation toward zero. */
  function Trunc(x: real): (n: int)
    ensures x >= 0.0 ==> n as real <= x < n as real + 1.0
    ensures x < 0.0 ==> n as real - 1.0 < x <= n as real
  {
    if x >= 0.0 then x.Floor else -((-x).Floor)
  }

  /** The pairs (i, j), j > i, that the inner loop of row i visits. */
  function Row(n: nat, i: nat): (ps: seq<(nat, nat)>)
    requires i < n
    ensures |ps| == n - 1 - i
    ensures forall k :: 0 <= k < |ps| ==> ps[k] == (i, i + 1 + k)
  {
    seq(n - 1 - i, k requires 0 <= k < n - 1 - i => (i, i + 1 + k))
  }

  /** The pairs visited by the first `i` rows of the double loop. */
  function RowsBefore(n: nat, i: nat): (ps: seq<(nat, nat)>)
    requires i <= n
    ensures forall k :: 0 <= k < |ps| ==> ps[k].0 < ps[k].1 < n && ps[k].0 < i
  {
    if i == 0 then [] else RowsBefore(n, i - 1) + Row(n, i - 1)
  }

  /** Every unordered pair of the `n` columns, in the order makeFig visits them. */
  function UpperPairs(n: nat): seq<(nat, nat)> { RowsBefore(n, n) }

  /** The axes a pair lands on: the first three along the top row, the rest along the bottom. */
  function Slot2(count: nat): (nat, nat) { if count < 3 then (0, count) else (1, count - 3) }

  function Layout(ps: seq<(nat, nat)>, first: int, last: int): (ls: seq<Placement>)
    ensures |ls| == |ps|
  {
    seq(|ps|, k requires 0 <= k < |ps| => Placement(Slot2(k).0, Slot2(k).1, ps[k].0, ps[k].1, first, last))
  }

  /** `makeFig` on a frame with `samples` rows and `n` columns and a 2x3 grid of
      axes: each pair gets the next subplot and shows the rows from
      `int(qu1 * samples)` to `int(qu2 * samples)`; a seventh pair would address
      `axs[1, 3]` and raise IndexError. */
  method MakeFig(samples: nat, n: nat, qu1: real, qu2: real) returns (r: Result<seq<Placement>>)
    ensures r.Ok? <==> |UpperPairs(n)| <= 6
    ensures r.Err? ==> r.error == IndexError
    ensures r.Ok? ==> r.value == Layout(UpperPairs(n), Trunc(qu1 * samples as real), Trunc(qu2 * samples as real))
  {
    var count := 0;
    var first := Trunc(qu1 * samples as real);
    var last := Trunc(qu2 * samples as real);
    var placed: seq<Placement> := [];
    ghost var visited: seq<(nat, nat)> := [];
    for i := 0 to n
      invariant visited == RowsBefore(n, i)
      invariant count == |visited| <= 6 && placed == Layout(visited, first, last)
    {
      var overflow;
      overflow, visited, placed, count := PlaceRow(n, i, first, last, visited, placed, count);
      if overflow {
        return Err(IndexError);
      }
    }
    return Ok(placed);
  }

  /** The inner loop of `makeFig` for row i: the next subplot for each pair
      (i, j), j > i, or IndexError once the six axes are used up. */
  method PlaceRow(n: nat, i: nat, first: int, last: int, ghost visited: seq<(nat, nat)>, placed: seq<Placement>, count: nat)
    returns (overflow: bool, ghost visited': seq<(nat, nat)>, placed': seq<Placement>, count': nat)
    requires i < n && visited == RowsBefore(n, i)
    requires count == |visited| <= 6 && placed == Layout(visited, first, last)
    ensures overflow ==> |UpperPairs(n)| > 6
    ensures !overflow ==> visited' == RowsBefore(n, i + 1) && count' == |visited'| <= 6 && placed' == Layout(visited', first, last)
  {
    visited', placed', count' := visited, placed, count;
    for j := i to n
      invariant visited' == RowsBefore(n, i) + Row(n, i)[..if j > i then j - i - 1 else 0]
      invariant count' == |visited'| <= 6 && placed' == Layout(visited', first, last)
    {
      if i == j {
        continue;
      }
      if count' >= 6 {
        PairsOverflow(n, i, j);
        return true, visited', placed', count';
      }
      var (row, col) := Slot2(count');
      LayoutSnoc(visited', (i, j), first, last);
      placed' := placed' + [Placement(row, col, i, j, first, last)];
      visited' := visited' + [(i, j)];
      assert Row(n, i)[..j - i] == Row(n, i)[..j - i - 1] + [(i, j)];
      count' := count' + 1;
    }
    assert Row(n, i)[..n - i - 1] == Row(n, i);
    overflow := false;
  }

  lemma LayoutSnoc(ps: seq<(nat, nat)>, p: (nat, nat), first: int, last: int)
    ensures Layout(ps + [p], first, last)
      == Layout(ps, first, last) + [Placement(Slot2(|ps|).0, Slot2(|ps|).1, p.0, p.1, first, last)]
  {
  }

  /** Reaching pair (i, j) with six pairs already placed means there are more than six pairs. */
  lemma PairsOverflow(n: nat, i: nat, j: nat)
    requires i < j < n && |RowsBefore(n, i)| + (j - i - 1) >= 6
    ensures |UpperPairs(n)| > 6
  {
    RowsBeforePrefix(n, i + 1, n);
  }

  lemma {:induction false} RowsBeforePrefix(n: nat, i: nat, m: nat)
    requires i <= m <= n
    ensures |RowsBefore(n, i)| <= |RowsBefore(n, m)|
    ensures RowsBefore(n, m)[..|RowsBefore(n, i)|] == RowsBefore(n, i)
    decreases m - i
  {
    if i < m {
      RowsBeforePrefix(n, i, m - 1);
      assert RowsBefore(n, m) == RowsBefore(n, m - 1) + Row(n, m - 1);
    }
  }

  /** With the four channels the figure shows the six unordered pairs, each on its own subplot. */
  lemma FourChannelLayout()
    ensures UpperPairs(4) == [(0, 1), (0, 2), (0, 3), (1, 2), (1, 3), (2, 3)]
    ensures forall a, b :: 0 <= a < b < 6 ==> Slot2(a) != Slot2(b)
  {
    assert RowsBefore(4, 1) == [(0, 1), (0, 2), (0, 3)];
    assert RowsBefore(4, 2) == [(0, 1), (0, 2), (0, 3), (1, 2), (1, 3)];
    assert RowsBefore(4, 3) == [(0, 1), (0, 2), (0, 3), (1, 2), (1, 3), (2, 3)];
  }

  /** Five or more columns give more than six pairs, so makeFig fails on them. */
  lemma {:induction false} ManyColumnsOverflow(n: nat)
    requires n >= 5
    ensures |UpperPairs(n)| > 6
  {
    RowsBeforePrefix(n, 2, n);
    assert RowsBefore(n, 1) == [] + Row(n, 0);
    assert RowsBefore(n, 2) == RowsBefore(n, 1) + Row(n, 1);
  }

  // ------------------------------------------------------------ smooth_func

  /** The smoothing applied to every column. */
  function Smoothed(num: Numerics, t: Table, window: int, polyorder: int): (r: Result<Table>)
    ensures r.Ok? ==> r.value.names == t.names && |r.value.rows| == |t.rows|
  {
    MapColumns(t, col => num.savgol(col, window, polyorder), |t.names|)
  }

  /** `smooth_func`: a copy of the frame with every column replaced by its
      Savitzky-Golay filtered version; the input frame is left untouched. */
  method SmoothFunc(num: Numerics, data: DataFrame<real>, window: int, polyorder: int) returns (r: Result<DataFrame<real>>)
    ensures r.Ok? ==> fresh(r.value)
    ensures r.Ok? <==> Smoothed(num, data.grid, window, polyorder).Ok?
    ensures r.Ok? ==> r.value.grid == Smoothed(num, data.grid, window, polyorder).value
  {
    var f := col => num.savgol(col, window, polyorder);
    var smoothed := data.Copy();
    var t := data.grid;
    for k := 0 to |t.names|
      invariant MapColumns(t, f, k).Ok? && smoothed.grid == MapColumns(t, f, k).value
    {
      var filtered := num.savgol(Column(t, k), window, polyorder);
      if filtered.None? || |filtered.value| != |t.rows| {
        SmoothedFails(t, f, k, |t.names|);
        return Err(ValueError);
      }
      smoothed.grid := WithColumn(smoothed.grid, k, filtered.value);
    }
    return Ok(smoothed);
  }

  /** A column that cannot be replaced makes the whole columnwise map fail. */
  lemma SmoothedFails(t: Table, f: seq<real> -> Option<seq<real>>, k: nat, n: nat)
    requires k < n <= |t.names| && !ColumnReplaceable(t, f, k)
    ensures MapColumns(t, f, n).Err?
  {
  }

  /** Each smoothed column depends on that column alone. */
  lemma SmoothedColumn(num: Numerics, t: Table, window: int, polyorder: int, c: nat)
    requires Smoothed(num, t, window, polyorder).Ok? && c < |t.names|
    ensures Column(Smoothed(num, t, window, polyorder).value, c) == num.savgol(Column(t, c), window, polyorder).value
  {
  }

  // -------------------------------------------------- get_matrix_difference

  function RowAbsDiff(a: seq<real>, b: seq<real>): (d: real)
    requires |a| == 4 && |b| == 4
    ensures d >= 0.0
    ensures d == 0.0 <==> a == b
  {
    AbsReal(a[0] - b[0]) + AbsReal(a[1] - b[1]) + AbsReal(a[2] - b[2]) + AbsReal(a[3] - b[3])
  }

  /** `get_matrix_difference`: None when either matrix is missing, otherwise
      the mean absolute entry-wise difference. */
  function MatrixDifference(a: Option<Mat4>, b: Option<Mat4>): (d: Option<real>)
    ensures d.Some? <==> a.Some? && b.Some?
    ensures d.Some? ==> d.value >= 0.0
  {
    if a.None? || b.None? then None
    else
      var m, n := a.value, b.value;
      Some((RowAbsDiff(m[0], n[0]) + RowAbsDiff(m[1], n[1]) + RowAbsDiff(m[2], n[2]) + RowAbsDiff(m[3], n[3])) / 16.0)
  }

  /** The difference is symmetric and vanishes exactly for equal matrices. */
  lemma MatrixDifferenceZeroIffEqual(a: Mat4, b: Mat4)
    ensures MatrixDifference(Some(a), Some(b)) == MatrixDifference(Some(b), Some(a))
    ensures MatrixDifference(Some(a), Some(b)) == Some(0.0) <==> a == b
  {
    forall r | 0 <= r < 4 ensures RowAbsDiff(a[r], b[r]) == RowAbsDiff(b[r], a[r]) {
      AbsDiffSymmetric(a[r][0], b[r][0]);
      AbsDiffSymmetric(a[r][1], b[r][1]);
      AbsDiffSymmetric(a[r][2], b[r][2]);
      AbsDiffSymmetric(a[r][3], b[r][3]);
    }
    if MatrixDifference(Some(a), Some(b)) == Some(0.0) {
      forall r | 0 <= r < 4 ensures a[r] == b[r] {
        assert RowAbsDiff(a[r], b[r]) == 0.0;
        assert forall c | 0 <= c < 4 :: a[r][c] == b[r][c];
      }
    }
  }

  lemma AbsDiffSymmetric(x: real, y: real)
    ensures AbsReal(x - y) == AbsReal(y - x)
  {
  }
}
