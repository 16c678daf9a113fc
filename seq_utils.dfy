/** app/utils/seq_utils.py as the program runs it: `estimate_crosstalk` with its
    loops, progress reports and per-round diagnostics, `baseline_cor`, which
    corrects the caller's frame in place, and the `deleteCrossTalk` pipeline. */
module SeqUtils {
  import opened PyCore
  import opened Frames
  import opened Matrix
  import opened Kernels
  import opened Estimation
  import AppUtils

  // -------------------------------------------------------------- progress

  /** What a progress message announces; the Russian texts are reduced to these tags. */
  datatype Stage =
    | Starting
    | Analysing(iteration: int, channelI: char, channelJ: char)
    | Converged(iteration: int)
    | RoundDone(iteration: int)
    | Finished
    | Smoothing
    | BaselineCorrection
    | EstimatingMatrix
    | RemovingCrosstalk
    | Done

  datatype Progress = Progress(percent: real, stage: Stage)

  /** The channel labels the messages use; they follow A, C, G, T whatever the column order. */
  function ChannelNames(): string { "ACGT" }

  /** `min((iteration - 1) / max_iterations + slot / 12 / max_iterations) * 100, 95)`. */
  function PairPercent(iteration: int, slot: nat, maxIt: int): real
    requires maxIt > 0
  {
    MinReal(((iteration - 1) as real / maxIt as real + slot as real / 12.0 / maxIt as real) * 100.0, 95.0)
  }

  /** The report sent before the fit of the pair in progress slot `slot`. */
  function PairEvent(iteration: int, slot: nat, maxIt: int): Progress
    requires maxIt > 0 && slot < 12
  {
    var (i, j) := Pairs()[slot];
    Progress(PairPercent(iteration, slot, maxIt), Analysing(iteration, ChannelNames()[i], ChannelNames()[j]))
  }

  /** The reports sent before the fits of the first `n` pairs of a round. */
  function PairEvents(iteration: int, maxIt: int, n: nat): (ps: seq<Progress>)
    requires maxIt > 0 && n <= 12
    ensures |ps| == n
  {
    if n == 0 then [] else PairEvents(iteration, maxIt, n - 1) + [PairEvent(iteration, n - 1, maxIt)]
  }

  /** The report that ends a round: 95 when it converged, otherwise
      `min(iteration / max_iterations * 100, 95)` with the counter already advanced. */
  function RoundEnd(iteration: int, maxIt: int, stops: bool): Progress
    requires maxIt > 0
  {
    if stops then Progress(95.0, Converged(iteration))
    else Progress(MinReal((iteration + 1) as real / maxIt as real * 100.0, 95.0), RoundDone(iteration))
  }

  /** The reports of the rounds `rs`, the last of which converged when `converged`. */
  function RoundsEvents(rs: seq<Round>, maxIt: int, converged: bool): (ps: seq<Progress>)
    requires |rs| > 0 ==> maxIt > 0
    ensures |ps| == 13 * |rs|
  {
    if |rs| == 0 then []
    else
      RoundsEvents(rs[..|rs| - 1], maxIt, false)
        + PairEvents(rs[|rs| - 1].number, maxIt, 12) + [RoundEnd(rs[|rs| - 1].number, maxIt, converged)]
  }

  /** Every report of a run that finished: 0 first, the rounds, 100 last. */
  function EstimateEvents(iterMax: int, tr: Trace): (ps: seq<Progress>)
    requires |tr.rounds| > 0 ==> iterMax > 1
  {
    [Progress(0.0, Starting)] + RoundsEvents(tr.rounds, iterMax - 1, tr.converged) + [Progress(100.0, Finished)]
  }

  /** The per-round data handed to `iteration_callback`: the round number and,
      for each pair in visiting order, both full channels, the slope and the intercept. */
  datatype Diagnostic = Diagnostic(iteration: int, fits: seq<PairFit>)

  function Diagnostics(rs: seq<Round>): (ds: seq<Diagnostic>)
    ensures |ds| == |rs|
  {
    if |rs| == 0 then [] else Diagnostics(rs[..|rs| - 1]) + [Diagnostic(rs[|rs| - 1].number, rs[|rs| - 1].fits)]
  }

  // ------------------------------------------------------------- one pair

  /** The loop over `np.array_split(result_data, bins)`: the row of smallest
      channel-j value in each section, in section order. */
  method SelectMinRows(band: seq<Point>, bins: nat) returns (minRows: seq<Point>)
    requires 0 < bins <= |band|
    ensures minRows == ChunkMinima(band, bins)
  {
    minRows := [];
    for k := 0 to bins
      invariant minRows == ChunkMinima(band, bins)[..k]
    {
      var interval := Chunk(band, bins, k);
      minRows := minRows + [interval[ArgMinY(interval)]];
    }
  }

  /** The body of the inner pair loop, from the quantiles to the regression. */
  method AnalysePair(num: Numerics, t: Table, i: nat, j: nat) returns (r: Result<PairFit>)
    ensures r == FitPair(num, t, i, j)
  {
    if i >= |t.names| || j >= |t.names| {
      return Err(IndexError);
    }
    var dataX := Column(t, i);
    var q1 := num.quantile(dataX, 0.6);
    var q2 := num.quantile(dataX, 0.99);
    var resultData := Band(t.rows, i, j, q1, q2);
    var bins := |resultData| / 8;
    if bins == 0 {
      return Err(ValueError);
    }
    var minRows := SelectMinRows(resultData, bins);
    var (interc, slope) := num.fit(Xs(minRows), Ys(minRows), 0.5);
    return Ok(PairFit(i, j, dataX, Column(t, j), slope, interc));
  }

  // ------------------------------------------------------------ one round

  /** A failure among the first pairs is the failure of the round. */
  lemma {:induction false} FitPairsErr(num: Numerics, t: Table, n: nat, m: nat, e: Error)
    requires n <= m <= 12 && FitPairs(num, t, n) == Err(e)
    ensures FitPairs(num, t, m) == Err(e)
    decreases m - n
  {
    if n < m {
      FitPairsErr(num, t, n + 1, m, e);
    }
  }

  lemma PlaceSlopesSnoc(fits: seq<PairFit>, f: PairFit)
    requires f.i < 4 && f.j < 4
    ensures RoundMatrix(fits + [f]) == Set4(RoundMatrix(fits), f.j, f.i, f.slope)
  {
    assert (fits + [f])[..|fits|] == fits;
  }

  /** The pair (i, j) is reached after the pairs of the earlier progress slots. */
  lemma VisitedSlot(i: nat, j: nat, s: nat)
    requires i < 4 && j < 4 && i != j && s == 3 * i + (if j <= i then j else j - 1)
    ensures s == Slot(i, j) < 12 && Pairs()[s] == (i, j)
  {
    PairOfSlot(i, j);
  }

  /** The two loops over the channel pairs of one round: the fits in visiting
      order and the matrix `W_estim` they fill in. `attempted` counts the pairs
      whose fit was started, the failing one included; one progress report goes
      out before each of them. */
  /** Fitting one more pair extends the fits so far, or fails with its error. */
  lemma FitPairsStep(num: Numerics, t: Table, n: nat, fs: seq<PairFit>, fit: Result<PairFit>)
    requires n < 12 && FitPairs(num, t, n) == Ok(fs) && fit == FitPair(num, t, Pairs()[n].0, Pairs()[n].1)
    ensures fit.Err? ==> FitPairs(num, t, n + 1) == Err(fit.error)
    ensures fit.Ok? ==> FitPairs(num, t, n + 1) == Ok(fs + [fit.value])
  {
  }

  method AnalyseRound(num: Numerics, t: Table) returns (r: Result<seq<PairFit>>, wEstim: Mat4, attempted: nat)
    ensures r == FitRound(num, t)
    ensures r.Ok? ==> wEstim == RoundMatrix(r.value) && attempted == 12
    ensures r.Err? ==> 0 < attempted <= 12 && FitPairs(num, t, attempted - 1).Ok? && FitPairs(num, t, attempted).Err?
  {
    var slopes: seq<PairFit> := [];
    wEstim := Identity();
    for i := 0 to 4
      invariant |slopes| == 3 * i && FitPairs(num, t, |slopes|) == Ok(slopes)
      invariant wEstim == RoundMatrix(slopes)
    {
      var failed;
      failed, slopes, wEstim := AnalyseRow(num, t, i, slopes, wEstim);
      if failed.Some? {
        return Err(failed.value), wEstim, |slopes| + 1;
      }
    }
    return Ok(slopes), wEstim, 12;
  }

  /** The inner loop `for j in range(4)` of one channel i: its three pairs,
      or the error of the first of them that fails. */
  method AnalyseRow(num: Numerics, t: Table, i: nat, slopes: seq<PairFit>, wEstim: Mat4)
    returns (failed: Option<Error>, slopes': seq<PairFit>, wEstim': Mat4)
    requires i < 4 && |slopes| == 3 * i && FitPairs(num, t, |slopes|) == Ok(slopes) && wEstim == RoundMatrix(slopes)
    ensures failed.Some? ==> FitRound(num, t) == Err(failed.value)
    ensures failed.Some? ==> |slopes'| < 12 && FitPairs(num, t, |slopes'|).Ok? && FitPairs(num, t, |slopes'| + 1).Err?
    ensures failed.None? ==> |slopes'| == 3 * i + 3 && FitPairs(num, t, |slopes'|) == Ok(slopes') && wEstim' == RoundMatrix(slopes')
  {
    slopes' := slopes;
    wEstim' := wEstim;
    for j := 0 to 4
      invariant |slopes'| == 3 * i + (if j <= i then j else j - 1)
      invariant FitPairs(num, t, |slopes'|) == Ok(slopes')
      invariant wEstim' == RoundMatrix(slopes')
    {
      if i == j {
        continue;
      }
      var fit;
      fit, slopes', wEstim' := AnalyseSlot(num, t, i, j, slopes', wEstim');
      if fit.Err? {
        return Some(fit.error), slopes', wEstim';
      }
    }
    failed := None;
  }

  /** One pass of the inner pair loop for i != j: the pair's fit, the slope
      list and `W_estim` after it. */
  method AnalyseSlot(num: Numerics, t: Table, i: nat, j: nat, slopes: seq<PairFit>, wEstim: Mat4)
    returns (fit: Result<PairFit>, slopes': seq<PairFit>, wEstim': Mat4)
    requires i < 4 && j < 4 && i != j && |slopes| == 3 * i + (if j <= i then j else j - 1)
    requires FitPairs(num, t, |slopes|) == Ok(slopes) && wEstim == RoundMatrix(slopes)
    ensures fit.Err? ==> slopes' == slopes && FitPairs(num, t, |slopes|).Ok? && FitPairs(num, t, |slopes| + 1).Err?
    ensures fit.Err? ==> FitRound(num, t) == Err(fit.error)
    ensures fit.Ok? ==> slopes' == slopes + [fit.value] && FitPairs(num, t, |slopes'|) == Ok(slopes')
    ensures fit.Ok? ==> wEstim' == RoundMatrix(slopes')
  {
    var s := |slopes|;
    VisitedSlot(i, j, s);
    fit := AnalysePair(num, t, i, j);
    FitPairsStep(num, t, s, slopes, fit);
    if fit.Err? {
      FitPairsErr(num, t, s + 1, 12, fit.error);
      return fit, slopes, wEstim;
    }
    PlaceSlopesSnoc(slopes, fit.value);
    wEstim' := Set4(wEstim, j, i, fit.value.slope);
    slopes' := slopes + [fit.value];
  }

  // ------------------------------------------------------- the estimator

  lemma RoundsEventsSnoc(rs: seq<Round>, r: Round, maxIt: int, converged: bool)
    requires maxIt > 0
    ensures RoundsEvents(rs + [r], maxIt, converged)
      == RoundsEvents(rs, maxIt, false) + PairEvents(r.number, maxIt, 12) + [RoundEnd(r.number, maxIt, converged)]
  {
    assert (rs + [r])[..|rs|] == rs;
  }

  /** One pass of the `while iteration < iter` body: the 12 pair fits, the
      stop test, and otherwise the unmixing, with the number of pairs
      attempted (the last of them failed when the fits fail). */
  method RunRound(num: Numerics, t: Table, w: Mat4, iteration: int, eps: real)
    returns (r: Result<Step>, fits: Result<seq<PairFit>>, attempted: nat)
    ensures r == RoundStep(num, t, w, iteration, eps)
    ensures fits == FitRound(num, t) && (r.Ok? ==> fits == Ok(r.value.round.fits))
    ensures attempted <= 12 && (r.Ok? ==> attempted == 12)
    ensures FitRound(num, t).Ok? ==> attempted == 12
    ensures FitRound(num, t).Err? ==>
      0 < attempted <= 12 && FitPairs(num, t, attempted - 1).Ok? && FitPairs(num, t, attempted).Err?
  {
    var wEstim;
    fits, wEstim, attempted := AnalyseRound(num, t);
    if fits.Err? {
      return Err(fits.error), fits, attempted;
    }
    FitRoundAligned(num, t);
    var round := Round(iteration, fits.value, wEstim);
    if AbsReal(MaxOf(Slopes(fits.value))) < eps {
      return Ok(Stop(round)), fits, attempted;
    }
    var inverse := num.inverse(wEstim);
    if inverse.None? {
      return Err(LinAlgError), fits, attempted;
    }
    var unmixed := MapRows(inverse.value, t);
    if unmixed.Err? {
      return Err(unmixed.error), fits, attempted;
    }
    return Ok(Continue(round, unmixed.value, MatMul(w, wEstim))), fits, attempted;
  }

  lemma ProgressStep(start: seq<Progress>, rs: seq<Round>, r: Round, maxIt: int, converged: bool, pairs: seq<Progress>, last: Progress)
    requires maxIt > 0 && pairs == PairEvents(r.number, maxIt, 12) && last == RoundEnd(r.number, maxIt, converged)
    ensures start + RoundsEvents(rs, maxIt, false) + pairs + [last] == start + RoundsEvents(rs + [r], maxIt, converged)
  {
    RoundsEventsSnoc(rs, r, maxIt, converged);
  }

  lemma DiagnosticsSnoc(rs: seq<Round>, r: Round)
    ensures Diagnostics(rs + [r]) == Diagnostics(rs) + [Diagnostic(r.number, r.fits)]
  {
    assert (rs + [r])[..|rs|] == rs;
  }

  /** The callback of one round: made when the iteration callback is given
      and the round's 12 fits came in, whatever happens to the round next. */
  function RoundDiagnostic(reportIterations: bool, iteration: int, fits: Result<seq<PairFit>>): (ds: seq<Diagnostic>)
    ensures |ds| <= 1
    ensures |ds| == 1 <==> reportIterations && fits.Ok?
    ensures |ds| == 1 ==> ds[0] == Diagnostic(iteration, fits.value)
  {
    if reportIterations && fits.Ok? then [Diagnostic(iteration, fits.value)] else []
  }

  /** Every iteration callback of the loop from round `iteration` on, after
      the rounds `done`, whether the run completes or fails: a failing round
      is still reported when its fits came in. */
  function Delivered(num: Numerics, t: Table, w: Mat4, iteration: int, iterMax: int, eps: real, done: seq<Round>): seq<Diagnostic>
    decreases iterMax - iteration
  {
    if iteration >= iterMax then Diagnostics(done)
    else
      match RoundStep(num, t, w, iteration, eps)
      case Err(_) => Diagnostics(done) + RoundDiagnostic(true, iteration, FitRound(num, t))
      case Ok(Stop(r)) => Diagnostics(done + [r])
      case Ok(Continue(r, t', w')) => Delivered(num, t', w', iteration + 1, iterMax, eps, done + [r])
  }

  /** What the callbacks from round `iteration` on are, given the outcome of its first round. */
  lemma DeliveredAfterStep(num: Numerics, t: Table, w: Mat4, iteration: int, iterMax: int, eps: real, done: seq<Round>, step: Result<Step>)
    requires iteration < iterMax && step == RoundStep(num, t, w, iteration, eps)
    ensures step.Err? ==> Delivered(num, t, w, iteration, iterMax, eps, done) == Diagnostics(done) + RoundDiagnostic(true, iteration, FitRound(num, t))
    ensures step.Ok? && step.value.Stop? ==> Delivered(num, t, w, iteration, iterMax, eps, done) == Diagnostics(done + [step.value.round])
    ensures step.Ok? && step.value.Continue? ==>
      Delivered(num, t, w, iteration, iterMax, eps, done) == Delivered(num, step.value.data, step.value.w, iteration + 1, iterMax, eps, done + [step.value.round])
  {
  }

  /** For a run that completes, the callbacks are exactly one per round of its trace. */
  lemma {:induction false} DeliveredCompleted(num: Numerics, t: Table, w: Mat4, iteration: int, iterMax: int, eps: real, done: seq<Round>)
    requires Run(num, t, w, iteration, iterMax, eps, done).Ok?
    ensures Delivered(num, t, w, iteration, iterMax, eps, done) == Diagnostics(Run(num, t, w, iteration, iterMax, eps, done).value.rounds)
    decreases iterMax - iteration
  {
    if iteration < iterMax {
      var step := RoundStep(num, t, w, iteration, eps);
      RunAfterStep(num, t, w, iteration, iterMax, eps, done, step);
      DeliveredAfterStep(num, t, w, iteration, iterMax, eps, done, step);
      if step.value.Continue? {
        DeliveredCompleted(num, step.value.data, step.value.w, iteration + 1, iterMax, eps, done + [step.value.round]);
      }
    }
  }

  /** A run whose first round fails after its 12 fits came in (the round's
      matrix does not invert) has still reported that round. */
  lemma FailedRoundReported(num: Numerics, t: Table, w: Mat4, iteration: int, iterMax: int, eps: real, done: seq<Round>)
    requires iteration < iterMax && RoundStep(num, t, w, iteration, eps).Err? && FitRound(num, t).Ok?
    ensures Run(num, t, w, iteration, iterMax, eps, done).Err?
    ensures Delivered(num, t, w, iteration, iterMax, eps, done) == Diagnostics(done) + [Diagnostic(iteration, FitRound(num, t).value)]
  {
    RunAfterStep(num, t, w, iteration, iterMax, eps, done, RoundStep(num, t, w, iteration, eps));
    DeliveredAfterStep(num, t, w, iteration, iterMax, eps, done, RoundStep(num, t, w, iteration, eps));
  }

  /** One pass of the `while iteration < iter` body with its reports: the
      progress messages for the pairs attempted, the iteration callback once
      the 12 fits are in (even when the round's matrix then fails to invert),
      then the message that ends the round. */
  method ReportedRound(num: Numerics, t: Table, w: Mat4, iteration: int, iterMax: int, eps: real,
                       reportProgress: bool, reportIterations: bool, ghost done: seq<Round>,
                       progress: seq<Progress>, diagnostics: seq<Diagnostic>)
    returns (step: Result<Step>, progress': seq<Progress>, diagnostics': seq<Diagnostic>)
    requires 1 <= iteration < iterMax
    requires progress == if reportProgress then [Progress(0.0, Starting)] + RoundsEvents(done, iterMax - 1, false) else []
    requires diagnostics == if reportIterations then Diagnostics(done) else []
    ensures step == RoundStep(num, t, w, iteration, eps)
    ensures step.Err? ==> (reportProgress ==> |progress'| > 0 && progress'[0] == Progress(0.0, Starting)) && (!reportProgress ==> progress' == [])
    ensures diagnostics' == diagnostics + RoundDiagnostic(reportIterations, iteration, FitRound(num, t))
    ensures step.Ok? ==>
      progress' == if reportProgress then [Progress(0.0, Starting)] + RoundsEvents(done + [step.value.round], iterMax - 1, step.value.Stop?) else []
    ensures step.Ok? ==> diagnostics' == if reportIterations then Diagnostics(done + [step.value.round]) else []
  {
    var fits, attempted;
    step, fits, attempted := RunRound(num, t, w, iteration, eps);
    progress', diagnostics' := ReportRound(iteration, iterMax, reportProgress, reportIterations, done, progress, diagnostics, step, fits, attempted);
  }

  /** The reports of one pass, given how the pass ended and how many pairs
      it attempted: a progress message per pair, the iteration callback once
      the 12 fits are in, then the message that ends the round. */
  method ReportRound(iteration: int, iterMax: int, reportProgress: bool, reportIterations: bool, ghost done: seq<Round>,
                     progress: seq<Progress>, diagnostics: seq<Diagnostic>, step: Result<Step>, fits: Result<seq<PairFit>>, attempted: nat)
    returns (progress': seq<Progress>, diagnostics': seq<Diagnostic>)
    requires 1 <= iteration < iterMax && attempted <= 12
    requires step.Ok? ==> attempted == 12 && step.value.round.number == iteration && fits == Ok(step.value.round.fits)
    requires progress == if reportProgress then [Progress(0.0, Starting)] + RoundsEvents(done, iterMax - 1, false) else []
    requires diagnostics == if reportIterations then Diagnostics(done) else []
    ensures step.Err? ==> progress' == if reportProgress then progress + PairEvents(iteration, iterMax - 1, attempted) else []
    ensures diagnostics' == diagnostics + RoundDiagnostic(reportIterations, iteration, fits)
    ensures step.Ok? ==>
      progress' == if reportProgress then [Progress(0.0, Starting)] + RoundsEvents(done + [step.value.round], iterMax - 1, step.value.Stop?) else []
    ensures step.Ok? ==> diagnostics' == if reportIterations then Diagnostics(done + [step.value.round]) else []
  {
    var maxIt := iterMax - 1;
    var pairs := PairEvents(iteration, maxIt, attempted);
    progress' := if reportProgress then progress + pairs else progress;
    diagnostics' := diagnostics;
    if reportIterations && fits.Ok? {
      diagnostics' := diagnostics' + [Diagnostic(iteration, fits.value)];
    }
    if step.Err? {
      return;
    }
    var round := step.value.round;
    if reportIterations {
      DiagnosticsSnoc(done, round);
    }
    if step.value.Stop? {
      var last := Progress(95.0, Converged(iteration));
      if reportProgress {
        ProgressStep([Progress(0.0, Starting)], done, round, maxIt, true, pairs, last);
        progress' := progress' + [last];
      }
    } else {
      var last := Progress(MinReal((iteration + 1) as real / maxIt as real * 100.0, 95.0), RoundDone(iteration));
      if reportProgress {
        ProgressStep([Progress(0.0, Starting)], done, round, maxIt, false, pairs, last);
        progress' := progress' + [last];
      }
    }
  }

  /** `estimate_crosstalk(data, epsilon=eps, iter=iterMax)`. The progress
      callback is present when `reportProgress`, the iteration callback when
      `reportIterations`; their calls are returned in order. */
  method EstimateCrosstalk(num: Numerics, data: Table, iterMax: int, eps: real, reportProgress: bool, reportIterations: bool)
    returns (r: Result<Mat4>, progress: seq<Progress>, diagnostics: seq<Diagnostic>)
    ensures r == Estimate(num, data, iterMax, eps)
    ensures !reportProgress ==> progress == []
    ensures reportProgress ==> |progress| > 0 && progress[0] == Progress(0.0, Starting)
    ensures reportProgress && Run(num, data, Identity(), 1, iterMax, eps, []).Ok? ==>
      progress == EstimateEvents(iterMax, Run(num, data, Identity(), 1, iterMax, eps, []).value)
    ensures !reportIterations ==> diagnostics == []
    ensures reportIterations ==> diagnostics == Delivered(num, data, Identity(), 1, iterMax, eps, [])
    ensures reportIterations && r.Ok? ==> diagnostics == Diagnostics(Run(num, data, Identity(), 1, iterMax, eps, []).value.rounds)
  {
    var failed, w;
    ghost var done, stopped;
    failed, w, done, stopped, progress, diagnostics := RunRounds(num, data, iterMax, eps, reportProgress, reportIterations);
    if failed.Some? {
      return Err(failed.value), progress, diagnostics;
    }
    r := NormalizeColumns(w);
    if reportProgress {
      progress := progress + [Progress(100.0, Finished)];
    }
  }

  /** One pass of the loop, read against the run it belongs to: the error
      that ends the run, the round that ends it by converging, or the round
      after which the run goes on from the unmixed data and the new W. */
  method AdvanceRound(num: Numerics, t: Table, w: Mat4, iteration: int, iterMax: int, eps: real,
                      reportProgress: bool, reportIterations: bool, ghost done: seq<Round>,
                      progress: seq<Progress>, diagnostics: seq<Diagnostic>)
    returns (failed: Option<Error>, stop: bool, t': Table, w': Mat4, ghost round: Round,
             progress': seq<Progress>, diagnostics': seq<Diagnostic>)
    requires 1 <= iteration < iterMax
    requires progress == if reportProgress then [Progress(0.0, Starting)] + RoundsEvents(done, iterMax - 1, false) else []
    requires diagnostics == if reportIterations then Diagnostics(done) else []
    ensures failed.Some? ==> Run(num, t, w, iteration, iterMax, eps, done) == Err(failed.value)
    ensures failed.Some? ==> (reportProgress ==> |progress'| > 0 && progress'[0] == Progress(0.0, Starting)) && (!reportProgress ==> progress' == [])
    ensures failed.Some? ==> diagnostics' == if reportIterations then Delivered(num, t, w, iteration, iterMax, eps, done) else []
    ensures failed.None? && stop ==> Delivered(num, t, w, iteration, iterMax, eps, done) == Diagnostics(done + [round])
    ensures failed.None? && !stop ==>
      Delivered(num, t, w, iteration, iterMax, eps, done) == Delivered(num, t', w', iteration + 1, iterMax, eps, done + [round])
    ensures failed.None? && stop ==> Run(num, t, w, iteration, iterMax, eps, done) == Ok(Trace(done + [round], true, w))
    ensures failed.None? && !stop ==>
      Run(num, t, w, iteration, iterMax, eps, done) == Run(num, t', w', iteration + 1, iterMax, eps, done + [round])
    ensures failed.None? ==>
      progress' == if reportProgress then [Progress(0.0, Starting)] + RoundsEvents(done + [round], iterMax - 1, stop) else []
    ensures failed.None? ==> diagnostics' == if reportIterations then Diagnostics(done + [round]) else []
  {
    var step;
    step, progress', diagnostics' := ReportedRound(num, t, w, iteration, iterMax, eps, reportProgress, reportIterations, done, progress, diagnostics);
    RunAfterStep(num, t, w, iteration, iterMax, eps, done, step);
    DeliveredAfterStep(num, t, w, iteration, iterMax, eps, done, step);
    if step.Err? {
      return Some(step.error), false, t, w, Round(iteration, [], Identity()), progress', diagnostics';
    }
    failed, round := None, step.value.round;
    if step.value.Stop? {
      stop, t', w' := true, t, w;
    } else {
      stop, t', w' := false, step.value.data, step.value.w;
    }
  }

  /** The `while iteration < iter` loop of `estimate_crosstalk` with its
      reports: either the error of the round that failed, or the product W
      of the rounds' matrices, the rounds run and whether the last one
      converged. */
  method RunRounds(num: Numerics, data: Table, iterMax: int, eps: real, reportProgress: bool, reportIterations: bool)
    returns (failed: Option<Error>, w: Mat4, ghost done: seq<Round>, ghost stopped: bool,
             progress: seq<Progress>, diagnostics: seq<Diagnostic>)
    ensures !reportProgress ==> progress == []
    ensures reportProgress ==> |progress| > 0 && progress[0] == Progress(0.0, Starting)
    ensures !reportIterations ==> diagnostics == []
    ensures reportIterations ==> diagnostics == Delivered(num, data, Identity(), 1, iterMax, eps, [])
    ensures failed.Some? ==> Run(num, data, Identity(), 1, iterMax, eps, []) == Err(failed.value)
    ensures failed.None? ==>
      && Run(num, data, Identity(), 1, iterMax, eps, []) == Ok(Trace(done, stopped, w))
      && (|done| > 0 ==> iterMax > 1)
      && progress == (if reportProgress then [Progress(0.0, Starting)] + RoundsEvents(done, iterMax - 1, stopped) else [])
      && diagnostics == (if reportIterations then Diagnostics(done) else [])
  {
    w := Identity();
    var current := data;
    var iteration := 1;
    progress := if reportProgress then [Progress(0.0, Starting)] else [];
    diagnostics := [];
    done := [];
    stopped := false;
    ghost var full := Run(num, data, Identity(), 1, iterMax, eps, []);
    ghost var delivered := Delivered(num, data, Identity(), 1, iterMax, eps, []);
    while iteration < iterMax
      invariant 1 <= iteration && (iteration > 1 ==> iteration <= iterMax)
      invariant |done| == iteration - 1 && !stopped
      invariant full == Run(num, current, w, iteration, iterMax, eps, done)
      invariant delivered == Delivered(num, current, w, iteration, iterMax, eps, done)
      invariant progress == if reportProgress then [Progress(0.0, Starting)] + RoundsEvents(done, iterMax - 1, false) else []
      invariant diagnostics == if reportIterations then Diagnostics(done) else []
      decreases iterMax - iteration
    {
      var err, stop, current', w';
      ghost var round;
      err, stop, current', w', round, progress, diagnostics :=
        AdvanceRound(num, current, w, iteration, iterMax, eps, reportProgress, reportIterations, done, progress, diagnostics);
      if err.Some? {
        return err, w, done, stopped, progress, diagnostics;
      }
      done := done + [round];
      if stop {
        stopped := true;
        break;
      }
      current, w, iteration := current', w', iteration + 1;
    }
    if !stopped {
      RunEnds(num, current, w, iteration, iterMax, eps, done);
    }
    failed := None;
  }

  // ------------------------------------------------------------ baseline_cor

  /** `data[col] - baseline(data[col], deg)`; a baseline of another length
      cannot be subtracted (pandas raises ValueError). */
  function BaselineColumn(num: Numerics, deg: int): seq<real> -> Option<seq<real>> {
    col =>
      var bl := num.baseline(col, deg);
      if |bl| == |col| then Some(Subtract(col, bl)) else None
  }

  /** Elementwise `a - b`. */
  function Subtract(a: seq<real>, b: seq<real>): (d: seq<real>)
    requires |a| == |b|
    ensures |d| == |a| && forall k :: 0 <= k < |a| ==> d[k] == a[k] - b[k]
  {
    seq(|a|, k requires 0 <= k < |a| => a[k] - b[k])
  }

  /** The frame `baseline_cor` leaves behind when every column succeeds. */
  function Baselined(num: Numerics, t: Table, deg: int): (r: Result<Table>)
    ensures r.Ok? ==> r.value.names == t.names && |r.value.rows| == |t.rows|
  {
    MapColumns(t, BaselineColumn(num, deg), |t.names|)
  }

  /** Every corrected cell plus its baseline gives back the original cell. */
  lemma BaselineSubtracts(num: Numerics, t: Table, deg: int, c: nat, k: nat)
    requires Baselined(num, t, deg).Ok? && c < |t.names| && k < |t.rows|
    ensures |num.baseline(Column(t, c), deg)| == |t.rows|
    ensures Baselined(num, t, deg).value.rows[k][c] + num.baseline(Column(t, c), deg)[k] == t.rows[k][c]
  {
    var f := BaselineColumn(num, deg);
    assert ColumnReplaceable(t, f, c);
    assert Column(Baselined(num, t, deg).value, c) == f(Column(t, c)).value;
  }

  /** `baseline_cor(data, deg)`: corrects the caller's frame column by column,
      in place, and returns that same frame. A failing column leaves the
      columns before it corrected. */
  method BaselineCor(num: Numerics, data: DataFrame<real>, deg: int) returns (r: Result<DataFrame<real>>)
    modifies data
    ensures r.Ok? <==> Baselined(num, old(data.grid), deg).Ok?
    ensures r.Ok? ==> r.value == data && data.grid == Baselined(num, old(data.grid), deg).value
    ensures r.Err? ==> r.error == ValueError
    ensures r.Err? ==> exists n :: 0 <= n < |old(data.grid).names| && MapColumns(old(data.grid), BaselineColumn(num, deg), n) == Ok(data.grid)
  {
    var f := BaselineColumn(num, deg);
    var t := data.grid;
    for k := 0 to |t.names|
      invariant MapColumns(t, f, k) == Ok(data.grid)
    {
      var bl := num.baseline(Column(t, k), deg);
      if |bl| != |t.rows| {
        AppUtils.SmoothedFails(t, f, k, |t.names|);
        return Err(ValueError);
      }
      var current := Column(data.grid, k);
      assert current == Column(t, k);
      var corrected := Subtract(current, bl);
      assert f(Column(t, k)) == Some(corrected);
      data.grid := WithColumn(data.grid, k, corrected);
    }
    return Ok(data);
  }

  // --------------------------------------------------------- deleteCrossTalk

  /** The frame after the optional smoothing and baseline stages. */
  function Prepared(num: Numerics, t: Table, remBase: bool, smooth: bool, window: int, polyorder: int): (r: Result<Table>)
    ensures r.Ok? ==> r.value.names == t.names && |r.value.rows| == |t.rows|
  {
    var smoothed := if smooth then AppUtils.Smoothed(num, t, window, polyorder) else Ok(t);
    match smoothed
    case Err(e) => Err(e)
    case Ok(u) => if remBase then Baselined(num, u, 6) else Ok(u)
  }

  /** `deleteCrossTalk`: smoothing, then baseline correction, then (without a
      given matrix) the estimate with the defaults `epsilon=0.05`, `iter=11`,
      then `inv(M)` applied to every sample. */
  function Cleaned(num: Numerics, t: Table, m: Option<Mat4>, remBase: bool, smooth: bool, window: int, polyorder: int): (r: Result<Table>)
    ensures r.Ok? ==> r.value.names == t.names && |r.value.rows| == |t.rows|
  {
    match Prepared(num, t, remBase, smooth, window, polyorder)
    case Err(e) => Err(e)
    case Ok(u) =>
      var matrix := if m.Some? then Ok(m.value) else Estimate(num, u, 11, 0.05);
      match matrix
      case Err(e) => Err(e)
      case Ok(w) => Unmix(num, w, u)
  }

  /** Cleaning with the identity matrix (whose inverse is itself) leaves the
      prepared frame as it is. */
  lemma CleanedWithIdentity(num: Numerics, t: Table, remBase: bool, smooth: bool, window: int, polyorder: int)
    requires num.inverse(Identity()) == Some(Identity()) && |t.names| == 4
    ensures Cleaned(num, t, Some(Identity()), remBase, smooth, window, polyorder) == Prepared(num, t, remBase, smooth, window, polyorder)
  {
    var p := Prepared(num, t, remBase, smooth, window, polyorder);
    if p.Ok? {
      MapRowsIdentity(p.value);
    }
  }

  /** The messages of the stages that run before the matrix is obtained. */
  function StageEvents(smooth: bool, remBase: bool): (ps: seq<Progress>)
    ensures |ps| <= 2
  {
    (if smooth then [Progress(10.0, Smoothing)] else []) + (if remBase then [Progress(30.0, BaselineCorrection)] else [])
  }

  /** The messages of stage 3: none for a given matrix, otherwise the 50%
      message and the estimator's own reports for its run. */
  function MatrixEvents(estimated: Option<Trace>): (ps: seq<Progress>) {
    if estimated.Some? then [Progress(50.0, EstimatingMatrix)] + EstimateEvents(11, estimated.value) else []
  }

  /** All messages of a successful `deleteCrossTalk`, given the estimator's run when it ran. */
  function CleanEvents(smooth: bool, remBase: bool, estimated: Option<Trace>): (ps: seq<Progress>)
    ensures |ps| >= 2 && ps[|ps| - 1] == Progress(100.0, Done) && ps[|ps| - 2] == Progress(95.0, RemovingCrosstalk)
  {
    StageEvents(smooth, remBase) + MatrixEvents(estimated) + [Progress(95.0, RemovingCrosstalk)] + [Progress(100.0, Done)]
  }

  /** When the matrix is estimated the reported percentage drops from 50 back
      to 0: the estimator restarts its own count. */
  lemma CleanEventsRestart(smooth: bool, remBase: bool, tr: Trace)
    ensures var ps := CleanEvents(smooth, remBase, Some(tr));
      exists k :: 0 <= k < |ps| - 1 && ps[k].percent == 50.0 && ps[k + 1].percent == 0.0
  {
    var ps := CleanEvents(smooth, remBase, Some(tr));
    var k := |StageEvents(smooth, remBase)|;
    assert ps[k] == Progress(50.0, EstimatingMatrix);
    assert ps[k + 1] == EstimateEvents(11, tr)[0];
  }

  /** Stages 1 and 2 of `deleteCrossTalk`: `smooth_func` gives a new frame,
      `baseline_cor` then corrects whichever frame `data` names at that point,
      which is the caller's own frame when there was no smoothing. */
  method PrepareData(num: Numerics, data: DataFrame<real>, remBase: bool, smooth: bool, reportProgress: bool, window: int, polyorder: int)
    returns (r: Result<DataFrame<real>>, progress: seq<Progress>)
    modifies data
    ensures r.Ok? <==> Prepared(num, old(data.grid), remBase, smooth, window, polyorder).Ok?
    ensures r.Ok? ==> r.value.grid == Prepared(num, old(data.grid), remBase, smooth, window, polyorder).value
    ensures r.Ok? ==> if smooth then fresh(r.value) else r.value == data
    ensures !(remBase && !smooth) ==> data.grid == old(data.grid)
    ensures remBase && !smooth && Baselined(num, old(data.grid), 6).Ok? ==> data.grid == Baselined(num, old(data.grid), 6).value
    ensures !reportProgress ==> progress == []
    ensures r.Ok? && reportProgress ==> progress == StageEvents(smooth, remBase)
  {
    ghost var t0 := data.grid;
    progress := [];
    var current := data;
    if smooth {
      if reportProgress {
        progress := progress + [Progress(10.0, Smoothing)];
      }
      var smoothed := AppUtils.SmoothFunc(num, current, window, polyorder);
      if smoothed.Err? {
        return Err(smoothed.error), progress;
      }
      current := smoothed.value;
    }
    assert current.grid == if smooth then AppUtils.Smoothed(num, t0, window, polyorder).value else t0;
    if remBase {
      if reportProgress {
        progress := progress + [Progress(30.0, BaselineCorrection)];
      }
      var corrected := BaselineCor(num, current, 6);
      if corrected.Err? {
        return Err(corrected.error), progress;
      }
      current := corrected.value;
    }
    return Ok(current), progress;
  }

  /** Stage 3 of `deleteCrossTalk`: the given matrix, or else the estimate
      with its own progress reports after the 50% message. */
  method ObtainMatrix(num: Numerics, u: Table, m: Option<Mat4>, reportProgress: bool, reportIterations: bool)
    returns (w: Result<Mat4>, progress: seq<Progress>, diagnostics: seq<Diagnostic>)
    ensures w == if m.Some? then Ok(m.value) else Estimate(num, u, 11, 0.05)
    ensures !reportProgress || m.Some? ==> progress == []
    ensures w.Ok? && reportProgress ==>
      progress == MatrixEvents(if m.None? then Some(Run(num, u, Identity(), 1, 11, 0.05, []).value) else None)
    ensures diagnostics == if m.None? && reportIterations then Delivered(num, u, Identity(), 1, 11, 0.05, []) else []
    ensures w.Ok? ==> diagnostics == if m.None? && reportIterations then Diagnostics(Run(num, u, Identity(), 1, 11, 0.05, []).value.rounds) else []
  {
    if m.Some? {
      return Ok(m.value), [], [];
    }
    progress := if reportProgress then [Progress(50.0, EstimatingMatrix)] else [];
    var events;
    w, events, diagnostics := EstimateCrosstalk(num, u, 11, 0.05, reportProgress, reportIterations);
    progress := progress + events;
  }

  /** `deleteCrossTalk(data, M, rem_base, smooth_data, ...)`. The caller's frame
      is corrected in place exactly when the baseline stage runs on it, that
      is without smoothing before it; the result is always a new frame. */
  method DeleteCrossTalk(num: Numerics, data: DataFrame<real>, m: Option<Mat4>, remBase: bool, smooth: bool,
                         reportProgress: bool, reportIterations: bool, window: int, polyorder: int)
    returns (r: Result<DataFrame<real>>, progress: seq<Progress>, diagnostics: seq<Diagnostic>)
    modifies data
    ensures r.Ok? <==> Cleaned(num, old(data.grid), m, remBase, smooth, window, polyorder).Ok?
    ensures r.Ok? ==> fresh(r.value) && r.value.grid == Cleaned(num, old(data.grid), m, remBase, smooth, window, polyorder).value
    ensures !(remBase && !smooth) ==> data.grid == old(data.grid)
    ensures remBase && !smooth && Baselined(num, old(data.grid), 6).Ok? ==> data.grid == Baselined(num, old(data.grid), 6).value
    ensures !reportProgress ==> progress == []
    ensures r.Ok? && reportProgress ==>
      var u := Prepared(num, old(data.grid), remBase, smooth, window, polyorder).value;
      progress == CleanEvents(smooth, remBase, if m.None? then Some(Run(num, u, Identity(), 1, 11, 0.05, []).value) else None)
    ensures Prepared(num, old(data.grid), remBase, smooth, window, polyorder).Err? ==> diagnostics == []
    ensures Prepared(num, old(data.grid), remBase, smooth, window, polyorder).Ok? ==>
      var u := Prepared(num, old(data.grid), remBase, smooth, window, polyorder).value;
      diagnostics == if m.None? && reportIterations then Delivered(num, u, Identity(), 1, 11, 0.05, []) else []
    ensures r.Ok? ==>
      var u := Prepared(num, old(data.grid), remBase, smooth, window, polyorder).value;
      diagnostics == if m.None? && reportIterations then Diagnostics(Run(num, u, Identity(), 1, 11, 0.05, []).value.rounds) else []
  {
    diagnostics := [];
    var prepared;
    prepared, progress := PrepareData(num, data, remBase, smooth, reportProgress, window, polyorder);
    if prepared.Err? {
      return Err(prepared.error), progress, diagnostics;
    }
    var u := prepared.value.grid;
    var w, events, rounds := ObtainMatrix(num, u, m, reportProgress, reportIterations);
    progress := progress + events;
    diagnostics := rounds;
    if w.Err? {
      return Err(w.error), progress, diagnostics;
    }
    if reportProgress {
      progress := progress + [Progress(95.0, RemovingCrosstalk)];
    }
    var inverse := num.inverse(w.value);
    if inverse.None? {
      return Err(LinAlgError), progress, diagnostics;
    }
    var unmixed := MapRows(inverse.value, u);
    if unmixed.Err? {
      return Err(unmixed.error), progress, diagnostics;
    }
    var result := new DataFrame(unmixed.value);
    if reportProgress {
      progress := progress + [Progress(100.0, Done)];
    }
    return Ok(result), progress, diagnostics;
  }
}
