/** utils.py, the older single-file version of the pipeline. Its
    `baseline_cor`, `makeFig`, `getCrossTalkColumn`, `getCrossTalk`, `getPeak`
    and `applyCrossTalk` are the same code as in app/utils and are modelled
    there (SeqUtils.BaselineCor, AppUtils.MakeFig, GenerateUtils); what
    differs is modelled here: an estimator that draws the pair figure every
    round and has no callbacks, a `deleteCrossTalk` with a given matrix and
    an optional baseline, and a test-data generator that adds noise before
    mixing. */
module LegacyUtils {
  import opened PyCore
  import opened Frames
  import opened Matrix
  import opened Kernels
  import opened Estimation
  import AppUtils
  import SeqUtils
  import GenerateUtils

  // ------------------------------------------------------ estimate_crosstalk

  /** Every round starts by drawing `makeFig(data, axs, 0, 1)` on a 2x3 grid,
      which raises IndexError for more than six column pairs; the data keep
      their columns from round to round, so that happens in the first round or
      never. Otherwise the rounds are those of the current estimator. */
  function LegacyEstimate(num: Numerics, t: Table, iterMax: int, eps: real): Result<Mat4> {
    if iterMax > 1 && |AppUtils.UpperPairs(|t.names|)| > 6 then Err(IndexError)
    else Estimate(num, t, iterMax, eps)
  }

  /** `estimate_crosstalk(data, bins, epsilon, iter)` of utils.py, returning
      with the matrix how many figures it showed (one per round). */
  method LegacyEstimateCrosstalk(num: Numerics, data: Table, iterMax: int, eps: real)
    returns (r: Result<Mat4>, shown: nat)
    ensures r == LegacyEstimate(num, data, iterMax, eps)
    ensures r.Ok? ==> shown == |Run(num, data, Identity(), 1, iterMax, eps, []).value.rounds|
  {
    var w := Identity();
    var current := data;
    var iteration := 1;
    shown := 0;
    ghost var done: seq<Round> := [];
    ghost var stopped := false;
    ghost var full := Run(num, data, Identity(), 1, iterMax, eps, []);
    while iteration < iterMax
      invariant 1 <= iteration && (iteration > 1 ==> iteration <= iterMax)
      invariant |done| == iteration - 1 && shown == |done| && !stopped
      invariant current.names == data.names && |current.rows| == |data.rows|
      invariant full == Run(num, current, w, iteration, iterMax, eps, done)
      invariant shown > 0 ==> |AppUtils.UpperPairs(|data.names|)| <= 6
      decreases iterMax - iteration
    {
      var figure := AppUtils.MakeFig(|current.rows|, |current.names|, 0.0, 1.0);
      if figure.Err? {
        return Err(figure.error), shown;
      }
      shown := shown + 1;
      var step, _, _ := SeqUtils.RunRound(num, current, w, iteration, eps);
      RunAfterStep(num, current, w, iteration, iterMax, eps, done, step);
      if step.Err? {
        return Err(step.error), shown;
      }
      if step.value.Stop? {
        done := done + [step.value.round];
        stopped := true;
        break;
      }
      current, w, iteration, done := step.value.data, step.value.w, iteration + 1, done + [step.value.round];
    }
    if !stopped {
      RunEnds(num, current, w, iteration, iterMax, eps, done);
    }
    assert full == Ok(Trace(done, stopped, w));
    r := NormalizeColumns(w);
  }

  /** Up to four channels give at most six pairs. */
  lemma FewPairs(n: nat)
    requires n <= 4
    ensures |AppUtils.UpperPairs(n)| <= 6
  {
    AppUtils.RowsBeforePrefix(4, 0, 4);
    if n == 4 {
      AppUtils.FourChannelLayout();
    } else if n == 3 {
      assert AppUtils.UpperPairs(3) == [] + AppUtils.Row(3, 0) + AppUtils.Row(3, 1) + AppUtils.Row(3, 2);
    } else if n == 2 {
      assert AppUtils.UpperPairs(2) == [] + AppUtils.Row(2, 0) + AppUtils.Row(2, 1);
    } else if n == 1 {
      assert AppUtils.UpperPairs(1) == [] + AppUtils.Row(1, 0);
    }
  }

  /** On data with up to four channels the legacy estimator returns what the
      current one does; with five or more it fails as soon as a round runs. */
  lemma LegacyEstimateVersusEstimate(num: Numerics, t: Table, iterMax: int, eps: real)
    ensures |t.names| <= 4 ==> LegacyEstimate(num, t, iterMax, eps) == Estimate(num, t, iterMax, eps)
    ensures |t.names| >= 5 && iterMax > 1 ==> LegacyEstimate(num, t, iterMax, eps) == Err(IndexError)
  {
    if |t.names| <= 4 {
      FewPairs(|t.names|);
    } else {
      AppUtils.ManyColumnsOverflow(|t.names|);
    }
  }

  // --------------------------------------------------------- deleteCrossTalk

  /** `deleteCrossTalk(data, M, rem_base)` of utils.py: `baseline_cor` on the
      caller's frame when `rem_base` is set, then `inv(M)` applied to every
      sample with the column labels put back, as a new frame. This is the
      current pipeline with a given matrix and no smoothing. */
  method LegacyDeleteCrossTalk(num: Numerics, data: DataFrame<real>, m: Mat4, remBase: bool) returns (r: Result<DataFrame<real>>)
    modifies data
    ensures r.Ok? <==> SeqUtils.Cleaned(num, old(data.grid), Some(m), remBase, false, 0, 0).Ok?
    ensures r.Ok? ==> fresh(r.value) && r.value.grid == SeqUtils.Cleaned(num, old(data.grid), Some(m), remBase, false, 0, 0).value
    ensures !remBase ==> data.grid == old(data.grid)
    ensures remBase && SeqUtils.Baselined(num, old(data.grid), 6).Ok? ==> data.grid == SeqUtils.Baselined(num, old(data.grid), 6).value
  {
    var current := data;
    if remBase {
      var corrected := SeqUtils.BaselineCor(num, data, 6);
      if corrected.Err? {
        return Err(corrected.error);
      }
      current := corrected.value;
    }
    var names := current.grid.names;
    var inverse := num.inverse(m);
    if inverse.None? {
      return Err(LinAlgError);
    }
    var unmixed := MapRows(inverse.value, current.grid);
    if unmixed.Err? {
      return Err(unmixed.error);
    }
    var result := new DataFrame(Grid(names, unmixed.value.rows));
    return Ok(result);
  }

  // ------------------------------------------------------------- getTestData

  /** `getTestData(n, peak_space, peak_width, peak_height, detail)` of utils.py:
      `noise_level` is fixed at 0.001, and the noise is added before the
      mixing matrix is applied. As in the current generator, a zero peak width
      gives NaN samples, which the model reports as NonFinite. */
  function LegacyTestData(num: Numerics, n: int, peakSpace: int, peakWidth: real, peakHeight: real, detail: int,
                          draws: seq<GenerateUtils.PeakDraw>, columns: seq<seq<real>>, noise: seq<seq<real>>): (r: Result<(Table, Mat4)>)
    requires GenerateUtils.Drawn(n, detail, GenerateUtils.TimeLength(n, peakSpace, detail), draws, columns, noise)
    ensures r.Ok? ==> r.value.0.names == GenerateUtils.Names() && |r.value.0.rows| == GenerateUtils.TimeLength(n, peakSpace, detail)
    ensures r.Ok? ==> r.value.1 == GenerateUtils.CrossTalkOf(columns)
    ensures r.Err? <==> n < 0 || (n > 0 && detail <= 0) || peakHeight * 0.001 < 0.0
                        || (n > 0 && GenerateUtils.TimeLength(n, peakSpace, detail) > 0 && peakWidth * detail as real == 0.0)
  {
    var len := GenerateUtils.TimeLength(n, peakSpace, detail);
    var width := peakWidth * detail as real;
    if n < 0 || (n > 0 && detail <= 0) || peakHeight * 0.001 < 0.0 then Err(ValueError)
    else if n > 0 && len > 0 && width == 0.0 then Err(NonFinite)
    else
      var m := GenerateUtils.CrossTalkOf(columns);
      var clean := GenerateUtils.Peaks(num, draws, n, len, peakSpace, detail, width);
      Ok((MapRows(m, GenerateUtils.Noised(clean, noise, 4)).value, m))
  }

  /** The model of the legacy `getTestData`: peaks, noise, then mixing. */
  method LegacyGetTestData(num: Numerics, n: int, peakSpace: int, peakWidth: real, peakHeight: real, detail: int,
                           draws: seq<GenerateUtils.PeakDraw>, columns: seq<seq<real>>, noise: seq<seq<real>>)
    returns (r: Result<(Table, Mat4)>)
    requires GenerateUtils.Drawn(n, detail, GenerateUtils.TimeLength(n, peakSpace, detail), draws, columns, noise)
    ensures r == LegacyTestData(num, n, peakSpace, peakWidth, peakHeight, detail, draws, columns, noise)
  {
    if n < 0 {
      return Err(ValueError);
    }
    var len := GenerateUtils.TimeLength(n, peakSpace, detail);
    var width := peakWidth * detail as real;
    var clean := GenerateUtils.AddPeaks(num, n, len, peakSpace, detail, width, draws);
    if clean.Err? {
      return Err(clean.error);
    }
    var noisy := GenerateUtils.AddNoise(clean.value, noise, peakHeight * 0.001);
    if noisy.Err? {
      return Err(noisy.error);
    }
    var m := GenerateUtils.CrossTalk(columns);
    var mixed := MapRows(m, noisy.value);
    if n > 0 && len > 0 && width == 0.0 {
      return Err(NonFinite);
    }
    return Ok((mixed.value, m));
  }

  /** The legacy generator is the current one (at noise level 0.001) whose
      noise has been passed through the mixing matrix as well. */
  lemma LegacyNoiseIsMixed(num: Numerics, n: int, peakSpace: int, peakWidth: real, peakHeight: real, detail: int,
                           draws: seq<GenerateUtils.PeakDraw>, columns: seq<seq<real>>, noise: seq<seq<real>>)
    requires GenerateUtils.Drawn(n, detail, GenerateUtils.TimeLength(n, peakSpace, detail), draws, columns, noise)
    ensures var len := GenerateUtils.TimeLength(n, peakSpace, detail);
      var mixedNoise := GenerateUtils.MixedNoise(GenerateUtils.CrossTalkOf(columns), noise, len);
      LegacyTestData(num, n, peakSpace, peakWidth, peakHeight, detail, draws, columns, noise)
        == GenerateUtils.TestData(num, n, peakSpace, peakWidth, peakHeight, detail, 0.001, draws, columns, mixedNoise)
  {
    var len := GenerateUtils.TimeLength(n, peakSpace, detail);
    var width := peakWidth * detail as real;
    if !(n < 0 || (n > 0 && detail <= 0) || peakHeight * 0.001 < 0.0) && !(n > 0 && len > 0 && width == 0.0) {
      var m := GenerateUtils.CrossTalkOf(columns);
      var clean := GenerateUtils.Peaks(num, draws, n, len, peakSpace, detail, width);
      GenerateUtils.NoiseThenMix(m, clean, noise);
    }
  }
}
