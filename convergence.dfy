/** The "Convergence" tab: per iteration, the largest absolute slope over the
    channel pairs, compared with a threshold. */
module Convergence {
  import opened PyCore
  import opened Iterations
  import Estimation

  const DefaultEpsilon: real := 0.05

  /** What a pair contributes: `abs(data.get("slope", 0))`; a `None` slope
      contributes nothing. */
  function SlopeMagnitude(s: Slope): real
    requires !s.Null?
  {
    match s
    case Absent => 0.0
    case Num(v) => AbsReal(v)
  }

  /** The magnitudes the pairs of one iteration contribute. */
  ghost function Magnitudes(it: Iteration): set<real> {
    set p | p in it && !it[p].slope.Null? :: SlopeMagnitude(it[p].slope)
  }

  /** `values` holds, for exactly the iterations with at least one non-None
      slope, the largest of their slope magnitudes. */
  ghost predicate Summarises(values: map<int, real>, d: FileIterations) {
    (forall k :: k in values <==> k in d && Magnitudes(d[k]) != {}) &&
    (forall k | k in values :: values[k] in Magnitudes(d[k]) && forall x | x in Magnitudes(d[k]) :: x <= values[k])
  }

  /** Every summarised value is a magnitude, hence not negative. */
  lemma SummaryNonNegative(values: map<int, real>, d: FileIterations)
    requires Summarises(values, d)
    ensures forall k | k in values :: values[k] >= 0.0
  {
    forall k | k in values ensures values[k] >= 0.0 {
      var p :| p in d[k] && !d[k][p].slope.Null? && SlopeMagnitude(d[k][p].slope) == values[k];
    }
  }

  /** The converged/not converged report of `_update_info_label`: the value
      of the largest iteration number against the threshold, and the first
      iteration whose value is below it. The text formatting is not modelled. */
  datatype Report = NoData | Status(finalIteration: int, finalValue: real, converged: bool, at: Option<int>)

  /** The top of the y range: `max(1.1 * max(values), 2 * epsilon)`. */
  function YTop(maxValue: real, epsilon: real): (top: real)
    ensures top >= 1.1 * maxValue && top >= 2.0 * epsilon
  {
    MaxReal(1.1 * maxValue, 2.0 * epsilon)
  }

  /** With non-negative values and threshold, the y range `[0, top]` holds
      every plotted value and the threshold line. */
  lemma YRangeShowsAll(values: map<int, real>, maxValue: real, epsilon: real)
    requires epsilon >= 0.0
    requires forall k | k in values :: 0.0 <= values[k] <= maxValue
    ensures forall k | k in values :: 0.0 <= values[k] <= YTop(maxValue, epsilon)
    ensures 0.0 <= epsilon <= YTop(maxValue, epsilon)
  {
    forall k | k in values ensures values[k] <= YTop(maxValue, epsilon) {
      assert values[k] <= maxValue <= 1.1 * maxValue;
    }
  }

  class ConvergenceWidget {
    var values: map<int, real>
    var epsilon: real

    constructor ()
      ensures values == map[] && epsilon == DefaultEpsilon
    {
      values := map[];
      epsilon := DefaultEpsilon;
    }

    /** `set_convergence_data`: earlier values are discarded and each
        iteration is summarised afresh. */
    method SetConvergenceData(d: FileIterations)
      modifies this
      ensures Summarises(values, d) && epsilon == old(epsilon)
    {
      values := map[];
      var pending := d.Keys;
      while pending != {}
        invariant pending <= d.Keys && epsilon == old(epsilon)
        invariant forall k :: k in values <==> k in d && k !in pending && Magnitudes(d[k]) != {}
        invariant forall k | k in values ::
          values[k] in Magnitudes(d[k]) && forall x | x in Magnitudes(d[k]) :: x <= values[k]
        decreases |pending|
      {
        assert (forall x :: x !in pending) ==> pending == {};
        var k :| k in pending;
        var m := LargestMagnitude(d[k]);
        if m.Some? {
          values := values[k := m.value];
        }
        pending := pending - {k};
      }
      assert pending == {};
    }

    /** `_update_info_label`: the final iteration is the largest number,
        convergence means its value is below the threshold, and the reported
        iteration is the smallest one below it. */
    method InfoReport() returns (r: Report)
      ensures values == map[] <==> r.NoData?
      ensures r.Status? ==>
        r.finalIteration in values && r.finalValue == values[r.finalIteration] &&
        (forall k | k in values :: k <= r.finalIteration) &&
        (r.converged <==> r.finalValue < epsilon) &&
        (r.at.Some? <==> r.converged)
      ensures r.Status? && r.at.Some? ==>
        r.at.value in values && values[r.at.value] < epsilon &&
        forall k | k in values && k < r.at.value :: values[k] >= epsilon
    {
      if values == map[] {
        return NoData;
      }
      assert values.Keys != {} by {
        assert (forall x :: x !in values.Keys) ==> values == map[];
      }
      var last := LargestKey(values.Keys);
      var final := values[last];
      var converged := final < epsilon;
      var at: Option<int> := None;
      if converged {
        at := FirstBelow(last);
      }
      r := Status(last, final, converged, at);
    }

    /** The first iteration below the threshold: a walk over the iteration
        numbers in increasing order that stops at the first hit. */
    method FirstBelow(hit: int) returns (at: Option<int>)
      requires hit in values && values[hit] < epsilon
      ensures at.Some? && at.value in values && values[at.value] < epsilon
      ensures forall k | k in values && k < at.value :: values[k] >= epsilon
    {
      var pending := values.Keys;
      at := Some(hit);
      while pending != {}
        invariant pending <= values.Keys
        invariant at.Some? && at.value in values && values[at.value] < epsilon
        invariant forall k | k in values && k !in pending && k < at.value :: values[k] >= epsilon
        decreases |pending|
      {
        assert (forall x :: x !in pending) ==> pending == {};
        var k :| k in pending;
        if values[k] < epsilon && k < at.value {
          at := Some(k);
        }
        pending := pending - {k};
      }
    }

    /** The y-range top `_plot_convergence` sets, or None with no values. */
    method PlotTop() returns (top: Option<real>)
      ensures values == map[] <==> top.None?
      ensures top.Some? ==>
        exists k :: k in values && top.value == YTop(values[k], epsilon) && forall k' | k' in values :: values[k'] <= values[k]
    {
      if values == map[] {
        return None;
      }
      var pending := values.Keys;
      assert pending != {} by { assert (forall x :: x !in pending) ==> values == map[]; }
      assert (forall x :: x !in pending) ==> pending == {};
      var best :| best in pending;
      while pending != {}
        invariant pending <= values.Keys && best in values
        invariant forall k | k in values && k !in pending :: values[k] <= values[best]
        decreases |pending|
      {
        assert (forall x :: x !in pending) ==> pending == {};
        var k :| k in pending;
        if values[k] > values[best] {
          best := k;
        }
        pending := pending - {k};
      }
      top := Some(YTop(values[best], epsilon));
    }

    /** `clear_data`. */
    method ClearData()
      modifies this
      ensures values == map[] && epsilon == old(epsilon)
    {
      values := map[];
    }

    /** `set_epsilon`. */
    method SetEpsilon(e: real)
      modifies this
      ensures epsilon == e && values == old(values)
    {
      epsilon := e;
    }
  }

  /** The largest slope magnitude of one iteration: a pass over its pairs. */
  method LargestMagnitude(it: Iteration) returns (m: Option<real>)
    ensures m.None? <==> Magnitudes(it) == {}
    ensures m.Some? ==> m.value in Magnitudes(it) && forall x | x in Magnitudes(it) :: x <= m.value
  {
    m := None;
    var pending := it.Keys;
    while pending != {}
      invariant pending <= it.Keys
      invariant m.None? ==> forall p | p in it && p !in pending :: it[p].slope.Null?
      invariant m.Some? ==> m.value in Magnitudes(it)
      invariant m.Some? ==> forall p | p in it && p !in pending && !it[p].slope.Null? :: SlopeMagnitude(it[p].slope) <= m.value
      decreases |pending|
    {
      assert (forall x :: x !in pending) ==> pending == {};
      var p :| p in pending;
      var s := it[p].slope;
      if !s.Null? {
        var v := SlopeMagnitude(s);
        if m.None? || v > m.value {
          m := Some(v);
        }
      }
      pending := pending - {p};
    }
    if m.None? {
      assert forall x | x in Magnitudes(it) :: false;
    }
  }

  /** Python's `max` over the iteration numbers. */
  method LargestKey(s: set<int>) returns (m: int)
    requires s != {}
    ensures m in s && forall k | k in s :: k <= m
  {
    assert (forall x :: x !in s) ==> s == {};
    m :| m in s;
    var rest := s - {m};
    while rest != {}
      invariant m in s && rest <= s
      invariant forall k | k in s && k !in rest :: k <= m
      decreases |rest|
    {
      assert (forall x :: x !in rest) ==> rest == {};
      var k :| k in rest;
      if k > m {
        m := k;
      }
      rest := rest - {k};
    }
  }

  /** The widget's "converged" never claims more than the estimator's stop
      test: when every slope magnitude is below the threshold, so is the
      magnitude of the largest signed slope. */
  lemma WidgetConvergedImpliesStop(slopes: seq<real>, eps: real)
    requires |slopes| > 0 && forall k | 0 <= k < |slopes| :: AbsReal(slopes[k]) < eps
    ensures Estimation.StopTest(slopes, eps) == Ok(true)
  {
    var m := Estimation.MaxOf(slopes);
    var k :| 0 <= k < |slopes| && slopes[k] == m;
    assert AbsReal(slopes[k]) < eps;
  }

  /** The converse fails: with slopes -0.5 and 0.01 the estimator stops at
      threshold 0.05 (the largest signed slope is 0.01), while the widget
      shows 0.5 for that round and reports no convergence. */
  lemma EstimatorStopsWhereWidgetDoesNot()
    ensures Estimation.StopTest([-0.5, 0.01], 0.05) == Ok(true)
    ensures Magnitudes(map[(0, 1) := PairData([], [], None, None, Num(-0.5), 0.0),
                           (1, 0) := PairData([], [], None, None, Num(0.01), 0.0)]) == {0.5, 0.01}
  {
    var s := [-0.5, 0.01];
    assert Estimation.MaxOf(s) == MaxReal(Estimation.MaxOf(s[..1]), s[1]);
    assert s[..1] == [-0.5];
    var it := map[(0, 1) := PairData([], [], None, None, Num(-0.5), 0.0),
                  (1, 0) := PairData([], [], None, None, Num(0.01), 0.0)];
    assert it[(0, 1)].slope == Num(-0.5) && it[(1, 0)].slope == Num(0.01);
    assert 0.5 in Magnitudes(it) && 0.01 in Magnitudes(it);
  }
}
