/** The intermediate results the estimator reports after each iteration, as
    the GUI stores them: per iteration, per ordered channel pair `(i, j)`,
    the scatter points, the regression points and the fitted line. */
module Iterations {
  import opened PyCore

  /** A pair's "slope" entry: missing from the record, present but `None`,
      or a number. */
  datatype Slope = Absent | Null | Num(v: real)

  datatype PairData = PairData(
    x: seq<real>, y: seq<real>,
    xRegression: Option<seq<real>>, yRegression: Option<seq<real>>,
    slope: Slope, intercept: real)

  /** One iteration: the data of each channel pair. */
  type Iteration = map<(int, int), PairData>

  /** All iterations of one file, by iteration number. */
  type FileIterations = map<int, Iteration>
}
