/** The numerical library routines the estimator calls. Their internals
    (quantile regression, interpolated quantiles, matrix inversion,
    polynomial baselines, Savitzky-Golay filtering, the exponential) are
    outside this model: each is a function value supplied by the caller, and
    every property proved holds whatever these functions compute. */
module Kernels {
  import opened PyCore
  import opened Matrix

  datatype Numerics = Numerics(
    /** `Series.quantile(q)` */
    quantile: (seq<real>, real) -> real,
    /** `QuantReg(y, add_constant(x)).fit(q).params`, as (intercept, slope) */
    fit: (seq<real>, seq<real>, real) -> (real, real),
    /** `np.linalg.inv`; None for a singular matrix */
    inverse: Mat4 -> Option<Mat4>,
    /** `peakutils.baseline(col, deg)` */
    baseline: (seq<real>, int) -> seq<real>,
    /** `savgol_filter(col, window, polyorder)`; None where scipy raises */
    savgol: (seq<real>, int, int) -> Option<seq<real>>,
    /** `np.exp` */
    exp: real -> real)
}
