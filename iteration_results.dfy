/** The "Iterations" tab: navigation over the iterations the estimator
    reported for one file, and the six scatter panels drawn for the current
    iteration, one per unordered channel pair. */
module IterationResults {
  import opened PyCore
  import opened PyStr
  import opened Iterations
  import opened PySlice

  /** The channel labels the widget uses for indices 0..3. */
  const ChannelNames: seq<string> := ["A", "C", "G", "T"]

  /** The pairs drawn in the six panel slots, in slot order. */
  const PlotPairs: seq<(int, int)> := [(0, 1), (0, 2), (0, 3), (1, 2), (1, 3), (2, 3)]

  /** The largest number of points drawn per panel before thinning. */
  const MaxDisplayPoints: nat := 5000

  /** The six slots hold exactly the pairs `i < j` of the four channels, each once. */
  lemma PlotPairsAreTheUnorderedPairs()
    ensures |PlotPairs| == 6 && Distinct(PlotPairs)
    ensures forall k | 0 <= k < 6 :: 0 <= PlotPairs[k].0 < PlotPairs[k].1 < 4
    ensures forall i, j | 0 <= i < j < 4 :: exists k :: 0 <= k < 6 && PlotPairs[k] == (i, j)
  {
    forall i, j | 0 <= i < j < 4 ensures exists k :: 0 <= k < 6 && PlotPairs[k] == (i, j) {
      if i == 0 { assert PlotPairs[j - 1] == (i, j); }
      else if i == 1 { assert PlotPairs[j + 1] == (i, j); }
      else { assert PlotPairs[5] == (i, j); }
    }
  }

  /** Python's `max` over the iteration numbers: one pass over the keys. */
  method MaxOf(s: set<int>) returns (m: int)
    requires s != {}
    ensures m in s && forall k | k in s :: k <= m
  {
    assert (forall x :: x !in s) ==> s == {};
    m :| m in s;
    var rest := s - {m};
    while rest != {}
      invariant m in s && rest <= s
      invariant forall k | k in s && k !in rest :: k <= m
      decreases |rest|
    {
      assert (forall x :: x !in rest) ==> rest == {};
      var k :| k in rest;
      if k > m {
        m := k;
      }
      rest := rest - {k};
    }
  }

  /** The line a swapped pair is drawn with: the inverse of `y = slope * x + intercept`
      when the slope is not zero; a zero slope keeps both coefficients. */
  function InvertLine(slope: real, intercept: real): (r: (real, real))
    ensures slope != 0.0 ==> r.0 * slope == 1.0 && r.1 * slope == -intercept
    ensures slope == 0.0 ==> r == (0.0, intercept)
  {
    if slope != 0.0 then (1.0 / slope, -intercept / slope) else (0.0, intercept)
  }

  /** For a non-zero slope, every point of the original line, read with its
      axes swapped, lies on the inverted line. */
  lemma InvertLineSwapsAxes(slope: real, intercept: real, u: real)
    requires slope != 0.0
    ensures var (s', b') := InvertLine(slope, intercept); s' * (slope * u + intercept) + b' == u
  {
    var s' := 1.0 / slope;
    assert s' * slope == 1.0;
    calc {
      s' * (slope * u + intercept) + -intercept / slope;
      (s' * slope) * u + s' * intercept - s' * intercept;
      u;
    }
  }

  /** Inverting a line twice gives it back. */
  lemma InvertLineInvolution(slope: real, intercept: real)
    ensures InvertLine(InvertLine(slope, intercept).0, InvertLine(slope, intercept).1) == (slope, intercept)
  {
    if slope != 0.0 {
      var s' := 1.0 / slope;
      assert s' * slope == 1.0;
      assert s' != 0.0;
      assert 1.0 / s' == slope;
      assert -(-intercept / slope) / s' == intercept;
    }
  }

  /** What a panel shows for one channel pair: points, regression points and
      the fitted line, and whether the stored pair was the reversed one. */
  datatype View = View(
    x: seq<real>, y: seq<real>,
    xRegression: Option<seq<real>>, yRegression: Option<seq<real>>,
    slope: Option<real>, intercept: real, swapped: bool)

  /** The lookup for pair `(i, j)`: its own entry if stored, else the entry of
      `(j, i)` with the axes, the regression points and the line swapped.
      A missing "slope" raises KeyError; a `None` slope of a reversed entry
      is divided into and raises TypeError. */
  function PairView(it: Iteration, i: int, j: int): (r: Result<Option<View>>)
    ensures r.Ok? && r.value.None? <==> (i, j) !in it && (j, i) !in it
    ensures r.Err? <==>
      ((i, j) in it && it[(i, j)].slope.Absent?) ||
      ((i, j) !in it && (j, i) in it && !it[(j, i)].slope.Num?)
  {
    if (i, j) in it then
      var d := it[(i, j)];
      match d.slope
      case Absent => Err(KeyError)
      case Null => Ok(Some(View(d.x, d.y, d.xRegression, d.yRegression, None, d.intercept, false)))
      case Num(s) => Ok(Some(View(d.x, d.y, d.xRegression, d.yRegression, Some(s), d.intercept, false)))
    else if (j, i) in it then
      var d := it[(j, i)];
      match d.slope
      case Absent => Err(KeyError)
      case Null => Err(TypeError)
      case Num(s) =>
        var (s', b') := InvertLine(s, d.intercept);
        Ok(Some(View(d.y, d.x, d.yRegression, d.xRegression, Some(s'), b', true)))
    else Ok(None)
  }

  /** A stored pair is shown as stored; a reversed one is shown with its
      points and regression points swapped and its line inverted. */
  lemma PairViewAgrees(it: Iteration, i: int, j: int)
    requires PairView(it, i, j).Ok? && PairView(it, i, j).value.Some?
    ensures var v := PairView(it, i, j).value.value;
      if (i, j) in it then
        var d := it[(i, j)];
        !v.swapped && v.x == d.x && v.y == d.y && v.intercept == d.intercept &&
        (d.slope.Num? <==> v.slope.Some?) && (d.slope.Num? ==> v.slope.value == d.slope.v)
      else
        var d := it[(j, i)];
        v.swapped && v.x == d.y && v.y == d.x &&
        v.xRegression == d.yRegression && v.yRegression == d.xRegression &&
        InvertLine(v.slope.value, v.intercept) == (d.slope.v, d.intercept)
  {
    if (i, j) !in it {
      var d := it[(j, i)];
      InvertLineInvolution(d.slope.v, d.intercept);
    }
  }

  /** `_optimize_points_for_display` with its default limit: up to the limit
      the points are kept; beyond it every `len(x) // limit`-th index of `x`
      is kept, the same indices are taken from `y`, and an index past the
      end of a shorter `y` raises IndexError. */
  function Thin(x: seq<real>, y: seq<real>): (r: Result<(seq<real>, seq<real>)>)
    ensures |x| <= MaxDisplayPoints ==> r == Ok((x, y))
    ensures r.Err? ==> r.error == IndexError && |y| < |x|
    ensures r.Ok? && |x| > MaxDisplayPoints ==>
      var step := |x| / MaxDisplayPoints;
      step > 0 && |r.value.0| == |r.value.1| == StrideCount(|x|, step) &&
      forall k | 0 <= k < |r.value.0| ::
        k * step < |x| && k * step < |y| && r.value.0[k] == x[k * step] && r.value.1[k] == y[k * step]
  {
    if |x| <= MaxDisplayPoints then Ok((x, y))
    else
      var step := |x| / MaxDisplayPoints;
      var c := StrideCount(|x|, step);
      assert 0 < c;
      if (c - 1) * step >= |y| then Err(IndexError)
      else Ok((Picked(x, c, step), Picked(y, c, step)))
  }

  /** With `step = n // m` and `n > m`, there are between `m` and `2 * m`
      multiples of `step` below `n`. */
  lemma StrideCountBounds(n: nat, m: nat)
    requires 0 < m < n
    ensures var step := n / m; step > 0 && m <= StrideCount(n, step) <= 2 * m
  {
    var step := n / m;
    assert step * m <= n < step * m + m;
    assert step >= 1;
    var c := StrideCount(n, step);
    assert (m - 1) * step == m * step - step;
    assert (m - 1) * step < n;
    assert m <= m * step;
    assert (2 * m) * step == m * step + m * step;
    assert !((2 * m) * step < n);
  }

  /** Beyond the limit, thinning keeps between the limit and twice the limit
      points. */
  lemma ThinBounds(x: seq<real>, y: seq<real>)
    requires |x| > MaxDisplayPoints && Thin(x, y).Ok?
    ensures MaxDisplayPoints <= |Thin(x, y).value.0| <= 2 * MaxDisplayPoints
  {
    StrideCountBounds(|x|, MaxDisplayPoints);
  }

  /** The regression colours of a theme; the point colour is one grey per theme. */
  function Palette(dark: bool): seq<string> {
    if dark then ["#FF6666", "#66FF66", "#6666FF", "#FFFF66"] else ["#FF0000", "#00AA00", "#0066FF", "#FF8800"]
  }

  function PointColor(dark: bool): string { if dark then "#808080" else "#B0B0B0" }

  /** The regression colour follows the first channel of the pair. */
  function RegressionColor(i: int, dark: bool): string {
    Palette(dark)[i % 4]
  }

  /** Panels whose first channels differ get different regression colours. */
  lemma RegressionColorsDistinct(i: int, i': int, dark: bool)
    requires 0 <= i < 4 && 0 <= i' < 4 && i != i'
    ensures RegressionColor(i, dark) != RegressionColor(i', dark)
  {
    var p := Palette(dark);
    assert p[0][1] != p[1][1] && p[0][1] != p[2][1] && p[0][3] != p[3][3];
    assert p[1][3] != p[2][3] && p[1][1] != p[3][1] && p[2][1] != p[3][1];
  }

  /** One of the six panels: a title with "(нет данных)" and nothing drawn, or
      the thinned points, the regression points when both are present and
      non-empty, and the dashed line when the slope is known and there are
      at least two points. */
  datatype Panel =
    | NoData(title: string)
    | Plotted(title: string, view: View, shownX: seq<real>, shownY: seq<real>,
              pointColor: string, regressionColor: string,
              showsRegressionPoints: bool, drawsLine: bool)

  function PanelTitle(i: int, j: int): string
    requires 0 <= i < 4 && 0 <= j < 4
  {
    ChannelNames[i] + " vs " + ChannelNames[j]
  }

  function PanelOf(it: Iteration, slot: nat, dark: bool): Result<Panel>
    requires slot < 6
  {
    var (i, j) := PlotPairs[slot];
    match PairView(it, i, j)
    case Err(e) => Err(e)
    case Ok(None) => Ok(NoData(PanelTitle(i, j) + " (нет данных)"))
    case Ok(Some(v)) =>
      match Thin(v.x, v.y)
      case Err(e) => Err(e)
      case Ok((x', y')) =>
        var regression :=
          v.xRegression.Some? && v.yRegression.Some? && |v.xRegression.value| > 0 && |v.yRegression.value| > 0;
        Ok(Plotted(PanelTitle(i, j), v, x', y', PointColor(dark), RegressionColor(i, dark),
                   regression, v.slope.Some? && |v.x| > 1))
  }

  /** The first `n` panels, drawn slot by slot; the first slot that raises
      ends the drawing with its exception. */
  function PanelsUpTo(it: Iteration, n: nat, dark: bool): Result<seq<Panel>>
    requires n <= 6
  {
    if n == 0 then Ok([])
    else
      match PanelsUpTo(it, n - 1, dark)
      case Err(e) => Err(e)
      case Ok(ps) =>
        match PanelOf(it, n - 1, dark)
        case Err(e) => Err(e)
        case Ok(p) => Ok(ps + [p])
  }

  /** `_display_current_iteration`: nothing is drawn unless the current
      iteration is stored; otherwise the six panels. */
  function Display(data: FileIterations, current: int, dark: bool): Result<seq<Panel>> {
    if current !in data then Ok([]) else PanelsUpTo(data[current], 6, dark)
  }

  lemma {:induction false} PanelsUpToSpec(it: Iteration, n: nat, dark: bool)
    requires n <= 6 && PanelsUpTo(it, n, dark).Ok?
    ensures var ps := PanelsUpTo(it, n, dark).value;
      |ps| == n &&
      forall k | 0 <= k < n :: PanelOf(it, k, dark).Ok? && ps[k] == PanelOf(it, k, dark).value
  {
    if n > 0 {
      PanelsUpToSpec(it, n - 1, dark);
    }
  }

  /** When the current iteration is drawn, slot `k` shows data exactly when
      its pair or the reversed pair was fitted in that iteration, and it
      shows it as `PairView` finds it. */
  lemma DisplayShowsFittedPairs(data: FileIterations, current: int, dark: bool, k: nat)
    requires current in data && Display(data, current, dark).Ok? && k < 6
    ensures var ps := Display(data, current, dark).value;
      var (i, j) := PlotPairs[k];
      |ps| == 6 &&
      (ps[k].Plotted? <==> (i, j) in data[current] || (j, i) in data[current]) &&
      (ps[k].Plotted? ==> PairView(data[current], i, j) == Ok(Some(ps[k].view)))
  {
    PanelsUpToSpec(data[current], 6, dark);
  }

  /** The navigation label and button states of `_update_ui_state`. */
  datatype UiState = UiState(prevEnabled: bool, nextEnabled: bool, caption: string)

  class IterationResultsWidget {
    var data: FileIterations
    var current: int
    var maxIteration: int

    constructor ()
      ensures data == map[] && current == 0 && maxIteration == 0
    {
      data := map[];
      current := 0;
      maxIteration := 0;
    }

    /** The position is on a stored-number range: between 1 and the largest
        iteration number. */
    predicate InRange()
      reads this
    {
      1 <= current <= maxIteration
    }

    /** `set_iteration_data`: the largest iteration number becomes the
        maximum (0 with no data) and the first iteration the current one. */
    method SetIterationData(d: FileIterations, dark: bool) returns (shown: Result<seq<Panel>>)
      modifies this
      ensures data == d
      ensures |d| == 0 ==> current == 0 && maxIteration == 0
      ensures |d| > 0 ==> current == 1 && maxIteration in d && forall k | k in d :: k <= maxIteration
      ensures shown == Display(data, current, dark)
    {
      data := d;
      if |d| == 0 {
        maxIteration := 0;
        current := 0;
      } else {
        assert d.Keys != {} by { assert |d.Keys| == |d|; }
        maxIteration := MaxOf(d.Keys);
        current := 1;
      }
      shown := DisplayCurrent(dark);
    }

    /** `_update_ui_state`. */
    method State() returns (s: UiState)
      ensures s.prevEnabled <==> |data| > 0 && current > 1
      ensures s.nextEnabled <==> |data| > 0 && current < maxIteration
      ensures |data| == 0 ==> s.caption == "Нет данных"
      ensures |data| > 0 ==>
        s.caption == "Итерация " + IntToString(current) + " из " + IntToString(maxIteration)
    {
      var hasData := |data| > 0;
      if hasData {
        s := UiState(current > 1, current < maxIteration,
                     "Итерация " + IntToString(current) + " из " + IntToString(maxIteration));
      } else {
        s := UiState(false, false, "Нет данных");
      }
    }

    /** `_prev_iteration`: moves back one iteration when not at the first and
        redraws; otherwise nothing happens. */
    method Prev(dark: bool) returns (shown: Option<Result<seq<Panel>>>)
      modifies this
      ensures data == old(data) && maxIteration == old(maxIteration)
      ensures old(current) > 1 ==> current == old(current) - 1 && shown == Some(Display(data, current, dark))
      ensures old(current) <= 1 ==> current == old(current) && shown == None
      ensures old(InRange()) ==> InRange()
    {
      if current > 1 {
        current := current - 1;
        var r := DisplayCurrent(dark);
        shown := Some(r);
      } else {
        shown := None;
      }
    }

    /** `_next_iteration`: moves on one iteration when not at the maximum and
        redraws; otherwise nothing happens. */
    method Next(dark: bool) returns (shown: Option<Result<seq<Panel>>>)
      modifies this
      ensures data == old(data) && maxIteration == old(maxIteration)
      ensures old(current) < maxIteration ==> current == old(current) + 1 && shown == Some(Display(data, current, dark))
      ensures old(current) >= maxIteration ==> current == old(current) && shown == None
      ensures old(InRange()) ==> InRange()
    {
      if current < maxIteration {
        current := current + 1;
        var r := DisplayCurrent(dark);
        shown := Some(r);
      } else {
        shown := None;
      }
    }

    /** `clear_data`. */
    method ClearData()
      modifies this
      ensures data == map[] && current == 0 && maxIteration == 0
    {
      data := map[];
      current := 0;
      maxIteration := 0;
    }

    /** The slot loop of `_display_current_iteration`. */
    method DisplayCurrent(dark: bool) returns (r: Result<seq<Panel>>)
      ensures r == Display(data, current, dark)
    {
      if current !in data {
        return Ok([]);
      }
      var it := data[current];
      var panels: seq<Panel> := [];
      for slot := 0 to 6
        invariant PanelsUpTo(it, slot, dark) == Ok(panels)
      {
        var p := PanelOf(it, slot, dark);
        if p.Err? {
          PanelsUpToFails(it, slot + 1, 6, dark);
          return Err(p.error);
        }
        panels := panels + [p.value];
      }
      r := Ok(panels);
    }
  }

  /** Once a prefix of the slots raises, every longer prefix raises the
      same exception. */
  lemma {:induction false} PanelsUpToFails(it: Iteration, n: nat, m: nat, dark: bool)
    requires n <= m <= 6 && PanelsUpTo(it, n, dark).Err?
    ensures PanelsUpTo(it, m, dark) == PanelsUpTo(it, n, dark)
    decreases m - n
  {
    if m > n {
      PanelsUpToFails(it, n, m - 1, dark);
    }
  }
}
