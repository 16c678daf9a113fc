/** The crosstalk estimator's specification: the channel pairs a round visits,
    how the points of one pair are selected, how a round's matrix is formed,
    and the sequence of refinement rounds. Both estimator implementations
    (the current one and the legacy one) are proved to compute `Estimate`. */
module Estimation {
  import opened PyCore
  import opened Frames
  import opened Matrix
  import opened Kernels

  // ---------------------------------------------------------------- pairs

  /** The ordered channel pairs in the order a round visits them: the nested
      loops over i and j in 0..3, with i == j skipped. */
  function Pairs(): (ps: seq<(nat, nat)>)
    ensures |ps| == 12
    ensures forall k :: 0 <= k < 12 ==> ps[k].0 < 4 && ps[k].1 < 4 && ps[k].0 != ps[k].1
  {
    [(0, 1), (0, 2), (0, 3), (1, 0), (1, 2), (1, 3), (2, 0), (2, 1), (2, 3), (3, 0), (3, 1), (3, 2)]
  }

  /** The progress position of pair (i, j): `i * 3 + (j if j < i else j - 1)`. */
  function Slot(i: nat, j: nat): nat
    requires i < 4 && j < 4 && i != j
  {
    i * 3 + (if j < i then j else j - 1)
  }

  lemma SlotOfPair(k: nat)
    requires k < 12
    ensures Slot(Pairs()[k].0, Pairs()[k].1) == k
  {
  }

  lemma PairOfSlot(i: nat, j: nat)
    requires i < 4 && j < 4 && i != j
    ensures Slot(i, j) < 12 && Pairs()[Slot(i, j)] == (i, j)
  {
  }

  /** The progress slots 0..11 number the pairs in visiting order, one to one. */
  lemma SlotBijection()
    ensures forall k :: 0 <= k < 12 ==> Slot(Pairs()[k].0, Pairs()[k].1) == k
    ensures forall i: nat, j: nat :: i < 4 && j < 4 && i != j ==> Slot(i, j) < 12 && Pairs()[Slot(i, j)] == (i, j)
  {
    forall k | 0 <= k < 12 ensures Slot(Pairs()[k].0, Pairs()[k].1) == k { SlotOfPair(k); }
    forall i: nat, j: nat | i < 4 && j < 4 && i != j ensures Slot(i, j) < 12 && Pairs()[Slot(i, j)] == (i, j) {
      PairOfSlot(i, j);
    }
  }

  /** A round visits exactly the 12 ordered pairs of distinct channels ... */
  lemma PairsAreAllOrderedPairs()
    ensures forall i: nat, j: nat :: (i, j) in Pairs() <==> i < 4 && j < 4 && i != j
  {
    SlotBijection();
  }

  /** ... each of them once ... */
  lemma PairsDistinct()
    ensures Distinct(Pairs())
  {
    forall a, b | 0 <= a < 12 && 0 <= b < 12 && Pairs()[a] == Pairs()[b] ensures a == b {
      SlotOfPair(a);
      SlotOfPair(b);
    }
  }

  /** ... in lexicographic order. */
  lemma PairsInLexOrder()
    ensures forall a, b :: 0 <= a < b < 12 ==>
      Pairs()[a].0 < Pairs()[b].0 || (Pairs()[a].0 == Pairs()[b].0 && Pairs()[a].1 < Pairs()[b].1)
  {
    forall a, b | 0 <= a < b < 12
      ensures Pairs()[a].0 < Pairs()[b].0 || (Pairs()[a].0 == Pairs()[b].0 && Pairs()[a].1 < Pairs()[b].1)
    {
      SlotOfPair(a);
      SlotOfPair(b);
    }
  }

  // ------------------------------------------------------------ selection

  datatype Point = Point(x: real, y: real)

  predicate HasColumns(rows: seq<seq<real>>, i: nat, j: nat) {
    forall r | 0 <= r < |rows| :: i < |rows[r]| && j < |rows[r]|
  }

  /** `data[(x >= q1) & (x <= q2)][[names[i], names[j]]]`: the samples whose
      channel-i value lies in [q1, q2], in their original order, as (x_i, x_j). */
  function Band(rows: seq<seq<real>>, i: nat, j: nat, q1: real, q2: real): (b: seq<Point>)
    requires HasColumns(rows, i, j)
    ensures |b| <= |rows|
    ensures forall p :: p in b ==> q1 <= p.x <= q2
    ensures forall r :: 0 <= r < |rows| && q1 <= rows[r][i] <= q2 ==> Point(rows[r][i], rows[r][j]) in b
  {
    if |rows| == 0 then []
    else
      var last := rows[|rows| - 1];
      Band(rows[..|rows| - 1], i, j, q1, q2)
        + (if q1 <= last[i] <= q2 then [Point(last[i], last[j])] else [])
  }

  /** Where section `k` of `np.array_split(s, bins)` starts when `|s| == n`:
      the first `n % bins` sections hold one extra element. */
  function ChunkStart(n: nat, bins: nat, k: nat): nat
    requires bins > 0
  {
    k * (n / bins) + Min(k, n % bins)
  }

  /** The sections tile the input: consecutive, none empty when bins <= n, the last ending at n. */
  lemma MulLeq(a: nat, b: nat, q: nat)
    requires a <= b
    ensures a * q <= b * q
  {
    assert b * q - a * q == (b - a) * q;
  }

  lemma QuotientAtLeastOne(n: nat, bins: nat)
    requires 0 < bins <= n
    ensures n / bins >= 1
  {
    var q := n / bins;
    assert n == bins * q + n % bins;
    assert bins * q > 0;
  }

  lemma ChunkTiling(n: nat, bins: nat, k: nat)
    requires 0 < bins <= n && k < bins
    ensures ChunkStart(n, bins, k) < ChunkStart(n, bins, k + 1) <= n
    ensures ChunkStart(n, bins, k + 1) - ChunkStart(n, bins, k) == n / bins + (if k < n % bins then 1 else 0)
    ensures ChunkStart(n, bins, 0) == 0 && ChunkStart(n, bins, bins) == n
  {
    var q, e := n / bins, n % bins;
    QuotientAtLeastOne(n, bins);
    assert n == bins * q + e;
    assert (k + 1) * q == k * q + q;
    MulLeq(k + 1, bins, q);
  }

  function Chunk(s: seq<Point>, bins: nat, k: nat): (c: seq<Point>)
    requires 0 < bins <= |s| && k < bins
    ensures |c| > 0
  {
    ChunkTiling(|s|, bins, k);
    s[ChunkStart(|s|, bins, k)..ChunkStart(|s|, bins, k + 1)]
  }

  /** `interval[names[j]].idxmin()`: the first position of the smallest y. */
  function ArgMinY(c: seq<Point>): (k: nat)
    requires |c| > 0
    ensures k < |c|
    ensures forall m :: 0 <= m < |c| ==> c[k].y <= c[m].y
    ensures forall m :: 0 <= m < k ==> c[m].y > c[k].y
  {
    if |c| == 1 then 0
    else
      var k := ArgMinY(c[..|c| - 1]);
      if c[|c| - 1].y < c[k].y then |c| - 1 else k
  }

  /** One lowest sample (first minimum of y) from each of the `bins` sections. */
  function ChunkMinima(s: seq<Point>, bins: nat): (ms: seq<Point>)
    requires 0 < bins <= |s|
    ensures |ms| == bins
  {
    seq(bins, k requires 0 <= k < bins => Chunk(s, bins, k)[ArgMinY(Chunk(s, bins, k))])
  }

  /** Each selected sample belongs to its own section and no sample of that
      section lies lower. */
  lemma ChunkMinimaAreSectionMinima(s: seq<Point>, bins: nat, k: nat)
    requires 0 < bins <= |s| && k < bins
    ensures ChunkMinima(s, bins)[k] in Chunk(s, bins, k)
    ensures forall p :: p in Chunk(s, bins, k) ==> ChunkMinima(s, bins)[k].y <= p.y
  {
  }

  function Xs(ps: seq<Point>): (xs: seq<real>)
    ensures |xs| == |ps| && forall k :: 0 <= k < |ps| ==> xs[k] == ps[k].x
  {
    seq(|ps|, k requires 0 <= k < |ps| => ps[k].x)
  }

  function Ys(ps: seq<Point>): (ys: seq<real>)
    ensures |ys| == |ps| && forall k :: 0 <= k < |ps| ==> ys[k] == ps[k].y
  {
    seq(|ps|, k requires 0 <= k < |ps| => ps[k].y)
  }

  // ----------------------------------------------------------------- fits

  /** The fit of one pair, with the full channel columns the diagnostics report. */
  datatype PairFit = PairFit(i: nat, j: nat, xs: seq<real>, ys: seq<real>, slope: real, intercept: real)

  /** Fits channel j against channel i: quantile band 0.6..0.99 of channel i,
      `len // 8` sections, the lowest sample of each, a median (q = 0.5)
      regression through those samples. A missing column is an IndexError;
      fewer than eight samples in the band make `np.array_split` raise. */
  function FitPair(num: Numerics, t: Table, i: nat, j: nat): (r: Result<PairFit>)
    ensures r.Ok? ==> r.value.i == i && r.value.j == j
    ensures r.Ok? ==> i < |t.names| && j < |t.names| && |t.rows| >= 8
    ensures r.Ok? ==> r.value.xs == Column(t, i) && r.value.ys == Column(t, j)
    ensures i < |t.names| && j < |t.names| && r.Err? ==> r.error == ValueError
  {
    if i >= |t.names| || j >= |t.names| then Err(IndexError)
    else
      var xs := Column(t, i);
      var band := Band(t.rows, i, j, num.quantile(xs, 0.6), num.quantile(xs, 0.99));
      var bins := |band| / 8;
      if bins == 0 then Err(ValueError)
      else
        var mins := ChunkMinima(band, bins);
        var (interc, slope) := num.fit(Xs(mins), Ys(mins), 0.5);
        Ok(PairFit(i, j, xs, Column(t, j), slope, interc))
  }

  /** The fits of the first `n` pairs in visiting order; the first failing pair ends the round. */
  function FitPairs(num: Numerics, t: Table, n: nat): (r: Result<seq<PairFit>>)
    requires n <= 12
    ensures r.Ok? ==> |r.value| == n
  {
    if n == 0 then Ok([])
    else
      match FitPairs(num, t, n - 1)
      case Err(e) => Err(e)
      case Ok(fs) =>
        match FitPair(num, t, Pairs()[n - 1].0, Pairs()[n - 1].1)
        case Err(e) => Err(e)
        case Ok(f) => Ok(fs + [f])
  }

  function FitRound(num: Numerics, t: Table): Result<seq<PairFit>> {
    FitPairs(num, t, 12)
  }

  /** Fit k of a round is the fit of the k-th pair in visiting order. */
  lemma {:induction false} FitPairsEntries(num: Numerics, t: Table, n: nat)
    requires n <= 12 && FitPairs(num, t, n).Ok?
    ensures forall k :: 0 <= k < n ==> FitPair(num, t, Pairs()[k].0, Pairs()[k].1) == Ok(FitPairs(num, t, n).value[k])
  {
    if n > 0 {
      FitPairsEntries(num, t, n - 1);
      var fs := FitPairs(num, t, n - 1).value;
      var f := FitPair(num, t, Pairs()[n - 1].0, Pairs()[n - 1].1).value;
      assert FitPairs(num, t, n).value == fs + [f];
      forall k | 0 <= k < n ensures FitPair(num, t, Pairs()[k].0, Pairs()[k].1) == Ok(FitPairs(num, t, n).value[k]) {
        if k < n - 1 {
          assert FitPairs(num, t, n).value[k] == fs[k];
        }
      }
    }
  }

  function Slopes(fits: seq<PairFit>): (s: seq<real>)
    ensures |s| == |fits| && forall k :: 0 <= k < |fits| ==> s[k] == fits[k].slope
  {
    seq(|fits|, k requires 0 <= k < |fits| => fits[k].slope)
  }

  function MaxOf(s: seq<real>): (m: real)
    requires |s| > 0
    ensures m in s && forall k :: 0 <= k < |s| ==> s[k] <= m
  {
    if |s| == 1 then s[0] else MaxReal(MaxOf(s[..|s| - 1]), s[|s| - 1])
  }

  /** `abs(max(slopes)) < epsilon`; `max` of an empty list raises ValueError. */
  function StopTest(slopes: seq<real>, eps: real): (r: Result<bool>)
    ensures r.Err? <==> |slopes| == 0
    ensures r == Ok(true) ==> forall k :: 0 <= k < |slopes| ==> slopes[k] < eps
    ensures r == Ok(true) ==> exists k :: 0 <= k < |slopes| && -eps < slopes[k] < eps
  {
    if |slopes| == 0 then Err(ValueError) else Ok(AbsReal(MaxOf(slopes)) < eps)
  }

  // ---------------------------------------------------------- round matrix

  function Set4(m: Mat4, r: nat, c: nat, v: real): (n: Mat4)
    requires r < 4 && c < 4
    ensures forall a, b :: 0 <= a < 4 && 0 <= b < 4 ==> n[a][b] == if a == r && b == c then v else m[a][b]
  {
    m[r := m[r][c := v]]
  }

  /** `W_estim[j, i] = slope` for every fit, in order. */
  function PlaceSlopes(m: Mat4, fits: seq<PairFit>): Mat4 {
    if |fits| == 0 then m
    else
      var f := fits[|fits| - 1];
      var prev := PlaceSlopes(m, fits[..|fits| - 1]);
      if f.j < 4 && f.i < 4 then Set4(prev, f.j, f.i, f.slope) else prev
  }

  function RoundMatrix(fits: seq<PairFit>): Mat4 { PlaceSlopes(Identity(), fits) }

  predicate Aligned(fits: seq<PairFit>) {
    |fits| <= 12 && forall k :: 0 <= k < |fits| ==> (fits[k].i, fits[k].j) == Pairs()[k]
  }

  lemma {:induction false} PlaceSlopesEntries(m: Mat4, fits: seq<PairFit>, r: nat, c: nat)
    requires Aligned(fits) && r < 4 && c < 4
    ensures r == c ==> PlaceSlopes(m, fits)[r][c] == m[r][c]
    ensures r != c ==>
      PlaceSlopes(m, fits)[r][c] == (if Slot(c, r) < |fits| then fits[Slot(c, r)].slope else m[r][c])
  {
    if |fits| > 0 {
      var n := |fits| - 1;
      var f := fits[n];
      assert (f.i, f.j) == Pairs()[n];
      assert Aligned(fits[..n]);
      PlaceSlopesEntries(m, fits[..n], r, c);
      SlotOfPair(n);
      if r != c {
        PairOfSlot(c, r);
      }
    }
  }

  /** A round's matrix has a unit diagonal and holds, at row j and column i,
      the slope fitted for channel j against channel i. */
  lemma RoundMatrixEntries(fits: seq<PairFit>)
    requires Aligned(fits) && |fits| == 12
    ensures forall r :: 0 <= r < 4 ==> RoundMatrix(fits)[r][r] == 1.0
    ensures forall k :: 0 <= k < 12 ==> RoundMatrix(fits)[fits[k].j][fits[k].i] == fits[k].slope
  {
    forall r | 0 <= r < 4 ensures RoundMatrix(fits)[r][r] == 1.0 {
      PlaceSlopesEntries(Identity(), fits, r, r);
    }
    forall k | 0 <= k < 12 ensures RoundMatrix(fits)[fits[k].j][fits[k].i] == fits[k].slope {
      PlaceSlopesEntries(Identity(), fits, fits[k].j, fits[k].i);
      SlotOfPair(k);
    }
  }

  /** `np.linalg.inv(W_estim) @ data.T`, transposed back, with the labels restored. */
  function Unmix(num: Numerics, w: Mat4, t: Table): (r: Result<Table>)
    ensures r.Ok? ==> r.value.names == t.names && |r.value.rows| == |t.rows|
    ensures num.inverse(w).None? ==> r == Err(LinAlgError)
  {
    match num.inverse(w)
    case None => Err(LinAlgError)
    case Some(inv) => MapRows(inv, t)
  }

  // ---------------------------------------------------------------- rounds

  datatype Round = Round(number: int, fits: seq<PairFit>, matrix: Mat4)

  /** The rounds that ran, whether the last of them met the stop test, and the
      accumulated (not yet normalised) matrix. */
  datatype Trace = Trace(rounds: seq<Round>, converged: bool, w: Mat4)

  /** `W = W @ m` for each m in turn. */
  function Product(w: Mat4, ms: seq<Mat4>): Mat4 {
    if |ms| == 0 then w else MatMul(Product(w, ms[..|ms| - 1]), ms[|ms| - 1])
  }

  function Matrices(rs: seq<Round>): (ms: seq<Mat4>)
    ensures |ms| == |rs| && forall k :: 0 <= k < |rs| ==> ms[k] == rs[k].matrix
  {
    seq(|rs|, k requires 0 <= k < |rs| => rs[k].matrix)
  }

  /** A round that fitted all 12 pairs in visiting order, whose matrix is the
      one its fits determine, and whose slopes pass the stop test exactly when `stops`. */
  predicate CompleteRound(r: Round, eps: real, stops: bool) {
    && Aligned(r.fits) && |r.fits| == 12
    && r.matrix == RoundMatrix(r.fits)
    && StopTest(Slopes(r.fits), eps) == Ok(stops)
  }

  /** What one round of the loop decides: stop (the round met the stop test), or
      continue with the unmixed data and the updated product. */
  datatype Step = Stop(round: Round) | Continue(round: Round, data: Table, w: Mat4)

  /** The body of `while iteration < iter`: fit the 12 pairs, build the round's
      matrix, test `abs(max(slopes)) < epsilon`, otherwise unmix the data and set
      `W = W @ W_estim`. */
  function RoundStep(num: Numerics, t: Table, w: Mat4, iteration: int, eps: real): (r: Result<Step>)
    ensures r.Ok? ==> r.value.round.number == iteration
    ensures r.Ok? ==> CompleteRound(r.value.round, eps, r.value.Stop?)
    ensures r.Ok? && r.value.Continue? ==> r.value.w == MatMul(w, r.value.round.matrix)
    ensures r.Ok? && r.value.Continue? ==> r.value.data.names == t.names && |r.value.data.rows| == |t.rows|
  {
    match FitRound(num, t)
    case Err(e) => Err(e)
    case Ok(fits) =>
      FitRoundAligned(num, t);
      var round := Round(iteration, fits, RoundMatrix(fits));
      match StopTest(Slopes(fits), eps)
      case Err(e) => Err(e)
      case Ok(stop) =>
        if stop then Ok(Stop(round))
        else
          match Unmix(num, round.matrix, t)
          case Err(e) => Err(e)
          case Ok(t') => Ok(Continue(round, t', MatMul(w, round.matrix)))
  }

  /** The `while iteration < iter` loop from round `iteration` on, with `t` the
      current (partly unmixed) data, `w` the product so far and `done` the
      rounds already run. */
  function Run(num: Numerics, t: Table, w: Mat4, iteration: int, iterMax: int, eps: real, done: seq<Round>): Result<Trace>
    decreases iterMax - iteration
  {
    if iteration >= iterMax then Ok(Trace(done, false, w))
    else
      match RoundStep(num, t, w, iteration, eps)
      case Err(e) => Err(e)
      case Ok(Stop(r)) => Ok(Trace(done + [r], true, w))
      case Ok(Continue(r, t', w')) => Run(num, t', w', iteration + 1, iterMax, eps, done + [r])
  }

  /** Once `iteration` reaches `iterMax` the run is over without converging. */
  lemma RunEnds(num: Numerics, t: Table, w: Mat4, iteration: int, iterMax: int, eps: real, done: seq<Round>)
    requires iteration >= iterMax
    ensures Run(num, t, w, iteration, iterMax, eps, done) == Ok(Trace(done, false, w))
  {
  }

  /** What the run from `iteration` is, given the outcome of its first round. */
  lemma RunAfterStep(num: Numerics, t: Table, w: Mat4, iteration: int, iterMax: int, eps: real, done: seq<Round>, step: Result<Step>)
    requires iteration < iterMax && step == RoundStep(num, t, w, iteration, eps)
    ensures step.Err? ==> Run(num, t, w, iteration, iterMax, eps, done) == Err(step.error)
    ensures step.Ok? && step.value.Stop? ==> Run(num, t, w, iteration, iterMax, eps, done) == Ok(Trace(done + [step.value.round], true, w))
    ensures step.Ok? && step.value.Continue? ==>
      Run(num, t, w, iteration, iterMax, eps, done) == Run(num, step.value.data, step.value.w, iteration + 1, iterMax, eps, done + [step.value.round])
  {
  }

  /** `estimate_crosstalk`: the rounds from `W = eye(4)`, `iteration = 1`, then
      every column of W divided by its sum. */
  function Estimate(num: Numerics, t: Table, iterMax: int, eps: real): Result<Mat4> {
    match Run(num, t, Identity(), 1, iterMax, eps, [])
    case Err(e) => Err(e)
    case Ok(tr) => NormalizeColumns(tr.w)
  }

  /** A completed round fitted the 12 pairs in the visiting order. */
  lemma FitRoundAligned(num: Numerics, t: Table)
    requires FitRound(num, t).Ok?
    ensures Aligned(FitRound(num, t).value) && |FitRound(num, t).value| == 12
  {
    FitPairsEntries(num, t, 12);
  }

  /** The rounds already run stay in front of the trace. */
  lemma {:induction false} RunKeepsDone(num: Numerics, t: Table, w: Mat4, iteration: int, iterMax: int, eps: real, done: seq<Round>)
    requires Run(num, t, w, iteration, iterMax, eps, done).Ok?
    ensures var tr := Run(num, t, w, iteration, iterMax, eps, done).value;
      |done| <= |tr.rounds| && tr.rounds[..|done|] == done
    decreases iterMax - iteration
  {
    if iteration < iterMax {
      var step := RoundStep(num, t, w, iteration, eps);
      RunAfterStep(num, t, w, iteration, iterMax, eps, done, step);
      var more := done + [step.value.round];
      assert more[..|done|] == done;
      if step.value.Continue? {
        RunKeepsDone(num, step.value.data, step.value.w, iteration + 1, iterMax, eps, more);
        var tr := Run(num, t, w, iteration, iterMax, eps, done).value;
        assert tr.rounds[..|more|][..|done|] == tr.rounds[..|done|];
      }
    }
  }

  /** At most `iterMax - iteration` more rounds run; a run that did not
      converge used them all, a converged one ran at least one. */
  lemma {:induction false} RunCount(num: Numerics, t: Table, w: Mat4, iteration: int, iterMax: int, eps: real, done: seq<Round>)
    requires Run(num, t, w, iteration, iterMax, eps, done).Ok?
    ensures var tr := Run(num, t, w, iteration, iterMax, eps, done).value;
      && |tr.rounds| <= |done| + Max(0, iterMax - iteration)
      && (!tr.converged ==> |tr.rounds| == |done| + Max(0, iterMax - iteration))
      && (tr.converged ==> |tr.rounds| > |done|)
    decreases iterMax - iteration
  {
    if iteration < iterMax {
      var step := RoundStep(num, t, w, iteration, eps);
      RunAfterStep(num, t, w, iteration, iterMax, eps, done, step);
      if step.value.Continue? {
        RunCount(num, step.value.data, step.value.w, iteration + 1, iterMax, eps, done + [step.value.round]);
      }
    }
  }

  /** Rounds are numbered consecutively: when the rounds in `done` are numbered
      up to `iteration - 1`, so are all the rounds of the trace. */
  lemma {:induction false} RunNumbers(num: Numerics, t: Table, w: Mat4, iteration: int, iterMax: int, eps: real, done: seq<Round>)
    requires Run(num, t, w, iteration, iterMax, eps, done).Ok?
    requires forall k :: 0 <= k < |done| ==> done[k].number == iteration - |done| + k
    ensures var tr := Run(num, t, w, iteration, iterMax, eps, done).value;
      forall k :: 0 <= k < |tr.rounds| ==> tr.rounds[k].number == iteration - |done| + k
    decreases iterMax - iteration
  {
    if iteration < iterMax {
      var step := RoundStep(num, t, w, iteration, eps);
      RunAfterStep(num, t, w, iteration, iterMax, eps, done, step);
      var more := done + [step.value.round];
      if step.value.Continue? {
        RunNumbers(num, step.value.data, step.value.w, iteration + 1, iterMax, eps, more);
      }
    }
  }

  /** Every round of a completed run fitted all 12 pairs in order, its matrix is
      the one those fits determine, and only the last round of a converged run
      met the stop test. */
  lemma {:induction false} RunRounds(num: Numerics, t: Table, w: Mat4, iteration: int, iterMax: int, eps: real, done: seq<Round>)
    requires Run(num, t, w, iteration, iterMax, eps, done).Ok?
    requires forall k :: 0 <= k < |done| ==> CompleteRound(done[k], eps, false)
    ensures var tr := Run(num, t, w, iteration, iterMax, eps, done).value;
      forall k :: 0 <= k < |tr.rounds| ==> CompleteRound(tr.rounds[k], eps, tr.converged && k == |tr.rounds| - 1)
    decreases iterMax - iteration
  {
    if iteration < iterMax {
      var step := RoundStep(num, t, w, iteration, eps).value;
      var more := done + [step.round];
      if step.Continue? {
        RunRounds(num, step.data, step.w, iteration + 1, iterMax, eps, more);
      }
    }
  }

  /** The rounds whose matrices were folded into W: all of them, except the
      last one of a converged run. */
  function FoldedRounds(tr: Trace): seq<Round> {
    if tr.converged && |tr.rounds| > 0 then tr.rounds[..|tr.rounds| - 1] else tr.rounds
  }

  lemma ProductSnoc(w: Mat4, rs: seq<Round>, r: Round)
    ensures Product(w, Matrices(rs + [r])) == MatMul(Product(w, Matrices(rs)), r.matrix)
  {
    assert Matrices(rs + [r])[..|rs|] == Matrices(rs);
  }

  /** The accumulated matrix is the product of the matrices of the rounds that
      did not converge; the converging round folds nothing in. */
  lemma {:induction false} RunProduct(num: Numerics, t: Table, w: Mat4, iteration: int, iterMax: int, eps: real, done: seq<Round>, w0: Mat4)
    requires Run(num, t, w, iteration, iterMax, eps, done).Ok?
    requires w == Product(w0, Matrices(done))
    ensures var tr := Run(num, t, w, iteration, iterMax, eps, done).value;
      tr.w == Product(w0, Matrices(FoldedRounds(tr)))
    decreases iterMax - iteration
  {
    if iteration < iterMax {
      var step := RoundStep(num, t, w, iteration, eps).value;
      var more := done + [step.round];
      if step.Continue? {
        ProductSnoc(w0, done, step.round);
        RunProduct(num, step.data, step.w, iteration + 1, iterMax, eps, more, w0);
      } else {
        assert more[..|more| - 1] == done;
      }
    }
  }

  /** A successful estimate has every column summing to one. */
  lemma EstimateColumnsSumToOne(num: Numerics, t: Table, iterMax: int, eps: real)
    requires Estimate(num, t, iterMax, eps).Ok?
    ensures forall c :: 0 <= c < 4 ==> ColumnSum(Estimate(num, t, iterMax, eps).value, c) == 1.0
  {
    var tr := Run(num, t, Identity(), 1, iterMax, eps, []).value;
    NormalizedColumnsSumToOne(tr.w);
  }

  /** With `iter <= 1` no round runs and the result is the identity matrix. */
  lemma EstimateWithoutRounds(num: Numerics, t: Table, iterMax: int, eps: real)
    requires iterMax <= 1
    ensures Estimate(num, t, iterMax, eps) == Ok(Identity())
  {
    forall c | 0 <= c < 4 ensures ColumnSum(Identity(), c) == 1.0 { }
    NormalizeIdempotent(Identity());
  }

  /** Data with fewer than eight samples can never be estimated: the first
      pair already leaves `np.array_split` with zero sections. */
  lemma EstimateNeedsEightSamples(num: Numerics, t: Table, iterMax: int, eps: real)
    requires iterMax > 1 && |t.rows| < 8
    ensures Estimate(num, t, iterMax, eps).Err?
  {
    assert Pairs()[..0] == [];
    assert FitPair(num, t, 0, 1).Err?;
  }
}
