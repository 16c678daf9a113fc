/** app/utils/generate_utils.py: synthetic four-channel traces and random
    crosstalk matrices. The module-level generator `rng` is replaced by the
    draws it would produce, passed in as parameters; `rng.uniform(0, h)` is
    `h * u` for a unit draw `u` in [0, 1). */
module GenerateUtils {
  import opened PyCore
  import opened Frames
  import opened Matrix
  import opened Kernels

  // ------------------------------------------------------ getCrossTalkColumn

  /** `rng.uniform(0, high)` for the unit draw `u`. */
  function Uniform(high: real, u: real): real { high * u }

  predicate UnitDraws(us: seq<real>) {
    forall k :: 0 <= k < |us| ==> 0.0 <= us[k] < 1.0
  }

  /** One pass of the loop: with `cur_min` the smaller end, a draw below it is
      appended and another is inserted at the front. */
  function Grow(ls: seq<real>, appended: real, inserted: real): (r: seq<real>)
    requires |ls| > 0
    ensures |r| == |ls| + 2
  {
    var curMin := MinReal(ls[0], ls[|ls| - 1]);
    [Uniform(curMin, inserted)] + ls + [Uniform(curMin, appended)]
  }

  /** The list after `k` passes, pass p using draws `2p` (appended) and `2p + 1` (inserted). */
  function Grown(us: seq<real>, k: nat): (ls: seq<real>)
    requires 2 * k <= |us|
    ensures |ls| == 2 * k + 1
  {
    if k == 0 then [1.0] else Grow(Grown(us, k - 1), us[2 * k - 2], us[2 * k - 1])
  }

  /** What `getCrossTalkColumn()` returns for the six unit draws it takes. */
  function ColumnOf(us: seq<real>): (ls: seq<real>)
    requires |us| == 6
    ensures |ls| == 7
  {
    Grown(us, 3)
  }

  /** 1 at `centre`, never increasing moving away from it, everything in [0, 1]. */
  predicate PeakedAt(ls: seq<real>, centre: nat) {
    && centre < |ls| && ls[centre] == 1.0
    && (forall a, b :: 0 <= a < b <= centre ==> ls[a] <= ls[b])
    && (forall a, b :: centre <= a < b < |ls| ==> ls[b] <= ls[a])
    && (forall k :: 0 <= k < |ls| ==> 0.0 <= ls[k] <= 1.0)
  }

  /** A pass keeps the shape: each new end lies below the smaller old end. */
  lemma GrowKeepsPeak(ls: seq<real>, centre: nat, a: real, b: real)
    requires PeakedAt(ls, centre) && 0.0 <= a < 1.0 && 0.0 <= b < 1.0
    ensures PeakedAt(Grow(ls, a, b), centre + 1)
  {
    var g := Grow(ls, a, b);
    var last := |ls| - 1;
    var curMin := MinReal(ls[0], ls[last]);
    ScaledBelow(curMin, a);
    ScaledBelow(curMin, b);
    assert g[0] <= curMin && g[|g| - 1] <= curMin;
    assert forall k :: 1 <= k <= |ls| ==> g[k] == ls[k - 1];
    assert g[centre + 1] == 1.0;
    forall x, y | 0 <= x < y <= centre + 1 ensures g[x] <= g[y] {
      assert g[y] == ls[y - 1];
      if x == 0 {
        assert ls[0] <= ls[y - 1];
      } else {
        assert g[x] == ls[x - 1];
      }
    }
    forall x, y | centre + 1 <= x < y < |g| ensures g[y] <= g[x] {
      assert g[x] == ls[x - 1];
      if y == |g| - 1 {
        assert ls[last] <= ls[x - 1];
      } else {
        assert g[y] == ls[y - 1];
      }
    }
    forall k | 0 <= k < |g| ensures 0.0 <= g[k] <= 1.0 {
      if 1 <= k <= |ls| {
        assert g[k] == ls[k - 1];
      }
    }
  }

  lemma ScaledBelow(h: real, u: real)
    requires 0.0 <= h <= 1.0 && 0.0 <= u < 1.0
    ensures 0.0 <= Uniform(h, u) <= h
  {
    if h > 0.0 {
      assert h * u < h * 1.0 by {
        assert h * (1.0 - u) > 0.0;
      }
    }
  }

  /** After every pass the list peaks at its middle. */
  lemma {:induction false} GrownPeaked(us: seq<real>, k: nat)
    requires 2 * k <= |us| && UnitDraws(us)
    ensures PeakedAt(Grown(us, k), k)
  {
    if k > 0 {
      GrownPeaked(us, k - 1);
      GrowKeepsPeak(Grown(us, k - 1), k - 1, us[2 * k - 2], us[2 * k - 1]);
    }
  }

  /** `getCrossTalkColumn()`: starting from `[1]`, three passes each append a
      value drawn below the smaller end and insert another at the front. */
  method CrossTalkColumn(units: seq<real>) returns (ls: seq<real>)
    requires |units| == 6
    ensures ls == ColumnOf(units)
    ensures UnitDraws(units) ==> |ls| == 7 && PeakedAt(ls, 3)
  {
    ls := [1.0];
    for i := 0 to 3
      invariant ls == Grown(units, i)
    {
      var curMin := MinReal(ls[0], ls[|ls| - 1]);
      ls := ls + [Uniform(curMin, units[2 * i])];
      ls := [Uniform(curMin, units[2 * i + 1])] + ls;
    }
    if UnitDraws(units) {
      GrownPeaked(units, 3);
    }
  }

  // ------------------------------------------------------------ getCrossTalk

  predicate ColumnDraws(draws: seq<seq<real>>) {
    |draws| == 4 && forall c :: 0 <= c < 4 ==> |draws[c]| == 6
  }

  /** `getCrossTalk()`: row i of the matrix before the transpose is the window
      `col[3-i:7-i]` of the i-th fresh column, so entry [r][c] of the result is
      entry `3 - c + r` of column draw c. */
  function CrossTalkOf(draws: seq<seq<real>>): Mat4
    requires ColumnDraws(draws)
  {
    seq(4, r requires 0 <= r < 4 => seq(4, c requires 0 <= c < 4 => ColumnOf(draws[c])[3 - c + r]))
  }

  /** The generated matrix has a unit diagonal and entries in [0, 1], and down
      each column the entries never increase moving away from the diagonal. */
  lemma CrossTalkShape(draws: seq<seq<real>>)
    requires ColumnDraws(draws) && forall c :: 0 <= c < 4 ==> UnitDraws(draws[c])
    ensures var m := CrossTalkOf(draws);
      && (forall i :: 0 <= i < 4 ==> m[i][i] == 1.0)
      && (forall r, c :: 0 <= r < 4 && 0 <= c < 4 ==> 0.0 <= m[r][c] <= 1.0)
      && (forall r, s, c :: 0 <= r < s <= c < 4 ==> m[r][c] <= m[s][c])
      && (forall r, s, c :: 0 <= c <= r < s < 4 ==> m[s][c] <= m[r][c])
  {
    forall c | 0 <= c < 4 ensures PeakedAt(ColumnOf(draws[c]), 3) {
      GrownPeaked(draws[c], 3);
    }
  }

  /** `getCrossTalk()`: four fresh columns, row i taking the window
      `col[3-i:7-i]`, and the transpose returned. */
  method CrossTalk(draws: seq<seq<real>>) returns (m: Mat4)
    requires ColumnDraws(draws)
    ensures m == CrossTalkOf(draws)
  {
    var rows: seq<seq<real>> := [];
    for i := 0 to 4
      invariant |rows| == i
      invariant forall k :: 0 <= k < i ==> rows[k] == ColumnOf(draws[k])[3 - k..7 - k]
    {
      var col := CrossTalkColumn(draws[i]);
      rows := rows + [col[3 - i..7 - i]];
    }
    m := seq(4, r requires 0 <= r < 4 => seq(4, c requires 0 <= c < 4 => rows[c][r]));
    forall r, c | 0 <= r < 4 && 0 <= c < 4 ensures m[r][c] == CrossTalkOf(draws)[r][c] {
      assert rows[c] == ColumnOf(draws[c])[3 - c..7 - c];
    }
    assert forall r :: 0 <= r < 4 ==> m[r] == CrossTalkOf(draws)[r];
  }

  // ------------------------------------------------------------------ getPeak

  /** `getPeak(t, t_k, width, A)`: a Gaussian of height A centred at `t_k`. */
  function Peak(num: Numerics, t: int, centre: int, width: real, height: real): real
    requires width != 0.0
  {
    height * num.exp(-((t - centre) * (t - centre)) as real / (2.0 * width * width))
  }

  /** The peak is symmetric about its centre. */
  lemma PeakSymmetric(num: Numerics, centre: int, d: int, width: real, height: real)
    requires width != 0.0
    ensures Peak(num, centre + d, centre, width, height) == Peak(num, centre - d, centre, width, height)
  {
    assert (centre + d - centre) * (centre + d - centre) == (centre - d - centre) * (centre - d - centre);
  }

  // -------------------------------------------------------------- getTestData

  /** The channel labels, in column order. */
  function Names(): seq<string> { ["A", "G", "C", "T"] }

  /** What one peak draws: its base (`rng.choice`, as a column index), its
      height (`rng.uniform` around `peak_height`) and its offset in its slot
      (`rng.integers(detail)`). */
  datatype PeakDraw = PeakDraw(base: nat, height: real, offset: int)

  /** `len(np.arange(0, peak_space * n * detail))` */
  function TimeLength(n: int, peakSpace: int, detail: int): nat { Max(0, peakSpace * n * detail) }

  /** `i * peak_space * detail + offset` */
  function Centre(i: int, peakSpace: int, detail: int, offset: int): int { i * peakSpace * detail + offset }

  /** With positive spacing and detail the peaks sit one per slot of `detail`
      samples, slot i starting at `i * peak_space * detail`, in increasing order. */
  lemma CentresInSlots(i: nat, j: nat, peakSpace: int, detail: int, oi: int, oj: int)
    requires peakSpace >= 1 && detail >= 1 && 0 <= oi < detail && 0 <= oj < detail
    ensures i * peakSpace * detail <= Centre(i, peakSpace, detail, oi) < i * peakSpace * detail + detail
    ensures i < j ==> Centre(i, peakSpace, detail, oi) < Centre(j, peakSpace, detail, oj)
  {
    if i < j {
      var slot := peakSpace * detail;
      MulAssoc(i, peakSpace, detail);
      MulAssoc(j, peakSpace, detail);
      MulNonneg(peakSpace - 1, detail);
      MulSub(peakSpace, 1, detail);
      MulNonneg(j - i - 1, slot);
      MulSub(j - i, 1, slot);
      MulSub(j, i, slot);
    }
  }

  /** The draws the generator consumes: one `PeakDraw` per base (when the
      generator gets that far), six unit draws per matrix column and one
      noise sample per time point and channel. */
  predicate Drawn(n: int, detail: int, len: nat, draws: seq<PeakDraw>, columns: seq<seq<real>>, noise: seq<seq<real>>) {
    && ColumnDraws(columns)
    && |noise| == 4 && (forall c :: 0 <= c < 4 ==> |noise[c]| == len)
    && (n >= 0 && detail > 0 ==>
          |draws| == n && forall i :: 0 <= i < n ==> draws[i].base < 4 && 0 <= draws[i].offset < detail)
  }

  /** The all-zero frame `pd.DataFrame(np.zeros((len, 4)))` labelled A, G, C, T. */
  function Zeros(len: nat): (t: Table)
    ensures t.names == Names() && |t.rows| == len
    ensures forall r, c :: 0 <= r < len && 0 <= c < 4 ==> t.rows[r][c] == 0.0
  {
    var g := Grid(Names(), seq(len, r => [0.0, 0.0, 0.0, 0.0]));
    assert IsRect(g);
    g
  }

  /** Elementwise `a + b`. */
  function Plus(a: seq<real>, b: seq<real>): (s: seq<real>)
    requires |a| == |b|
    ensures |s| == |a| && forall k :: 0 <= k < |a| ==> s[k] == a[k] + b[k]
  {
    seq(|a|, k requires 0 <= k < |a| => a[k] + b[k])
  }

  /** `getPeak(time_axis, centre, width, height)` over the whole time axis. */
  function PeakColumn(num: Numerics, len: nat, centre: int, width: real, height: real): (col: seq<real>)
    requires width != 0.0 || len == 0
    ensures |col| == len
  {
    seq(len, t requires 0 <= t < len => Peak(num, t, centre, width, height))
  }

  predicate ValidBases(draws: seq<PeakDraw>, k: nat) {
    k <= |draws| && forall i :: 0 <= i < k ==> draws[i].base < 4
  }

  /** The frame after the first `k` passes of `data[base] += peak`. */
  function Peaks(num: Numerics, draws: seq<PeakDraw>, k: nat, len: nat, peakSpace: int, detail: int, width: real): (t: Table)
    requires ValidBases(draws, k) && (width != 0.0 || len == 0)
    ensures t.names == Names() && |t.rows| == len
  {
    if k == 0 then Zeros(len)
    else
      var p := Peaks(num, draws, k - 1, len, peakSpace, detail, width);
      var d := draws[k - 1];
      WithColumn(p, d.base, Plus(Column(p, d.base), PeakColumn(num, len, Centre(k - 1, peakSpace, detail, d.offset), width, d.height)))
  }

  /** The height of channel c at time t when the first `k` bases have been drawn:
      the sum of the peaks of those bases that are c. */
  function PeakSum(num: Numerics, draws: seq<PeakDraw>, k: nat, c: nat, t: int, peakSpace: int, detail: int, width: real): real
    requires k <= |draws| && width != 0.0
  {
    if k == 0 then 0.0
    else
      var d := draws[k - 1];
      PeakSum(num, draws, k - 1, c, t, peakSpace, detail, width)
        + (if d.base == c then Peak(num, t, Centre(k - 1, peakSpace, detail, d.offset), width, d.height) else 0.0)
  }

  /** Each channel of the noiseless trace is the sum of the peaks drawn for that base. */
  lemma {:induction false} PeaksCell(num: Numerics, draws: seq<PeakDraw>, k: nat, len: nat, peakSpace: int, detail: int, width: real, t: nat, c: nat)
    requires ValidBases(draws, k) && width != 0.0 && t < len && c < 4
    ensures Peaks(num, draws, k, len, peakSpace, detail, width).rows[t][c] == PeakSum(num, draws, k, c, t, peakSpace, detail, width)
  {
    if k > 0 {
      PeaksCell(num, draws, k - 1, len, peakSpace, detail, width, t, c);
      var p := Peaks(num, draws, k - 1, len, peakSpace, detail, width);
      var d := draws[k - 1];
      var q := Peaks(num, draws, k, len, peakSpace, detail, width);
      if d.base == c {
        assert q.rows[t][c] == Column(q, c)[t];
      } else {
        assert q.rows[t][c] == Column(q, c)[t] == Column(p, c)[t];
      }
    }
  }

  /** `data[names[k]] += noise[k]` done for the first `c` channels. */
  function Noised(t: Table, noise: seq<seq<real>>, c: nat): (u: Table)
    requires |t.names| == 4 && c <= 4
    requires |noise| == 4 && forall k :: 0 <= k < 4 ==> |noise[k]| == |t.rows|
    ensures u.names == t.names && |u.rows| == |t.rows|
    ensures forall r, k :: 0 <= r < |t.rows| && 0 <= k < 4 ==> u.rows[r][k] == if k < c then t.rows[r][k] + noise[k][r] else t.rows[r][k]
  {
    var g := Grid(t.names, seq(|t.rows|, r requires 0 <= r < |t.rows| =>
      seq(4, k requires 0 <= k < 4 => if k < c then t.rows[r][k] + noise[k][r] else t.rows[r][k])));
    assert IsRect(g);
    g
  }

  lemma NoisedNone(t: Table, noise: seq<seq<real>>)
    requires |t.names| == 4
    requires |noise| == 4 && forall k :: 0 <= k < 4 ==> |noise[k]| == |t.rows|
    ensures Noised(t, noise, 0) == t
  {
    var u := Noised(t, noise, 0);
    forall r | 0 <= r < |t.rows| ensures u.rows[r] == t.rows[r] {
      assert |t.rows[r]| == 4;
    }
  }

  /** Adding channel c's noise moves the noisy prefix on by one channel. */
  lemma NoisedStep(t: Table, noise: seq<seq<real>>, c: nat)
    requires |t.names| == 4 && c < 4
    requires |noise| == 4 && forall k :: 0 <= k < 4 ==> |noise[k]| == |t.rows|
    ensures var u := Noised(t, noise, c);
      WithColumn(u, c, Plus(Column(u, c), noise[c])) == Noised(t, noise, c + 1)
  {
    var u := Noised(t, noise, c);
    var v := WithColumn(u, c, Plus(Column(u, c), noise[c]));
    var w := Noised(t, noise, c + 1);
    forall r | 0 <= r < |t.rows| ensures v.rows[r] == w.rows[r] {
      forall k | 0 <= k < 4 ensures v.rows[r][k] == w.rows[r][k] {
        assert v.rows[r][k] == Column(v, k)[r];
        if k != c {
          assert Column(v, k) == Column(u, k);
        }
      }
    }
  }

  /** `getTestData(n, peak_space, peak_width, peak_height, detail, noise_level)`:
      the trace (mixed by the generated matrix, then made noisy) and the matrix.
      A negative `n`, a non-positive `detail` with peaks to place or a negative
      noise scale make numpy raise ValueError. A zero peak width divides by
      zero: numpy raises nothing and gives NaN at each peak's centre (0/0) and
      0 elsewhere, so the returned frame holds NaN samples; the model has no
      NaN and reports such a frame as NonFinite. */
  function TestData(num: Numerics, n: int, peakSpace: int, peakWidth: real, peakHeight: real, detail: int, noiseLevel: real,
                    draws: seq<PeakDraw>, columns: seq<seq<real>>, noise: seq<seq<real>>): (r: Result<(Table, Mat4)>)
    requires Drawn(n, detail, TimeLength(n, peakSpace, detail), draws, columns, noise)
    ensures r.Ok? ==> r.value.0.names == Names() && |r.value.0.rows| == TimeLength(n, peakSpace, detail)
    ensures r.Ok? ==> r.value.1 == CrossTalkOf(columns)
    ensures r.Err? <==> n < 0 || (n > 0 && detail <= 0) || peakHeight * noiseLevel < 0.0
                        || (n > 0 && TimeLength(n, peakSpace, detail) > 0 && peakWidth * detail as real == 0.0)
  {
    var len := TimeLength(n, peakSpace, detail);
    var width := peakWidth * detail as real;
    if n < 0 || (n > 0 && detail <= 0) || peakHeight * noiseLevel < 0.0 then Err(ValueError)
    else if n > 0 && len > 0 && width == 0.0 then Err(NonFinite)
    else
      var m := CrossTalkOf(columns);
      var clean := Peaks(num, draws, n, len, peakSpace, detail, width);
      Ok((Noised(MapRows(m, clean).value, noise, 4), m))
  }

  /** The loop `for i, base in enumerate(seq): data[base] += getPeak(...)`
      over an all-zero frame. `rng.integers(detail)` raises ValueError for a
      non-positive `detail` on the first pass. With a zero width and a non-empty
      time axis numpy would put NaN at each peak's centre; the model then leaves
      the frame unspecified (the callers report NonFinite). */
  method AddPeaks(num: Numerics, n: nat, len: nat, peakSpace: int, detail: int, width: real, draws: seq<PeakDraw>)
    returns (r: Result<Table>)
    requires detail > 0 ==> ValidBases(draws, n)
    ensures r.Err? <==> n > 0 && detail <= 0
    ensures r.Err? ==> r.error == ValueError
    ensures r.Ok? ==> r.value.names == Names() && |r.value.rows| == len
    ensures r.Ok? && (width != 0.0 || len == 0) ==> r.value == Peaks(num, draws, n, len, peakSpace, detail, width)
  {
    var data := Zeros(len);
    for i := 0 to n
      invariant data.names == Names() && |data.rows| == len
      invariant i > 0 ==> detail > 0
      invariant width != 0.0 || len == 0 ==> data == Peaks(num, draws, i, len, peakSpace, detail, width)
    {
      if detail <= 0 {
        return Err(ValueError);
      }
      var d := draws[i];
      var centre := Centre(i, peakSpace, detail, d.offset);
      if width != 0.0 || len == 0 {
        var peak := PeakColumn(num, len, centre, width, d.height);
        data := WithColumn(data, d.base, Plus(Column(data, d.base), peak));
      }
    }
    return Ok(data);
  }

  /** `for base in data: data[base] += rng.normal(0, scale, len(time_axis))`;
      numpy refuses a negative scale with ValueError. */
  method AddNoise(t: Table, noise: seq<seq<real>>, scale: real) returns (r: Result<Table>)
    requires |t.names| == 4
    requires |noise| == 4 && forall k :: 0 <= k < 4 ==> |noise[k]| == |t.rows|
    ensures r == if scale < 0.0 then Err(ValueError) else Ok(Noised(t, noise, 4))
  {
    var data := t;
    NoisedNone(t, noise);
    for c := 0 to 4
      invariant data == Noised(t, noise, c)
      invariant c > 0 ==> scale >= 0.0
    {
      if scale < 0.0 {
        return Err(ValueError);
      }
      NoisedStep(t, noise, c);
      data := WithColumn(data, c, Plus(Column(data, c), noise[c]));
    }
    return Ok(data);
  }

  /** The model of `getTestData` itself: peaks added channel by channel, the
      generated matrix applied to every sample, then noise added per channel. */
  method GetTestData(num: Numerics, n: int, peakSpace: int, peakWidth: real, peakHeight: real, detail: int, noiseLevel: real,
                     draws: seq<PeakDraw>, columns: seq<seq<real>>, noise: seq<seq<real>>) returns (r: Result<(Table, Mat4)>)
    requires Drawn(n, detail, TimeLength(n, peakSpace, detail), draws, columns, noise)
    ensures r == TestData(num, n, peakSpace, peakWidth, peakHeight, detail, noiseLevel, draws, columns, noise)
  {
    if n < 0 {
      return Err(ValueError);
    }
    var len := TimeLength(n, peakSpace, detail);
    var width := peakWidth * detail as real;
    var clean := AddPeaks(num, n, len, peakSpace, detail, width, draws);
    if clean.Err? {
      return Err(clean.error);
    }
    var m := CrossTalk(columns);
    var mixed := MapRows(m, clean.value);
    var noisy := AddNoise(mixed.value, noise, peakHeight * noiseLevel);
    if noisy.Err? {
      return Err(noisy.error);
    }
    if n > 0 && len > 0 && width == 0.0 {
      return Err(NonFinite);
    }
    return Ok((noisy.value, m));
  }

  /** The noise as it looks after passing through `m`: sample t of channel k
      is row k of `m` applied to the four noise values drawn for time t. */
  function MixedNoise(m: Mat4, noise: seq<seq<real>>, len: nat): (mixed: seq<seq<real>>)
    requires |noise| == 4 && forall k :: 0 <= k < 4 ==> |noise[k]| == len
    ensures |mixed| == 4 && forall k :: 0 <= k < 4 ==> |mixed[k]| == len
  {
    seq(4, k requires 0 <= k < 4 => seq(len, t requires 0 <= t < len =>
      Dot4(m[k], [noise[0][t], noise[1][t], noise[2][t], noise[3][t]])))
  }

  lemma Dot4Plus(a: seq<real>, b: seq<real>, c: seq<real>)
    requires |a| == 4 && |b| == 4 && |c| == 4
    ensures Dot4(a, Plus(b, c)) == Dot4(a, b) + Dot4(a, c)
  {
  }

  /** Mixing is linear: noise added before mixing is the same as mixed noise
      added after it. */
  lemma NoiseThenMix(m: Mat4, t: Table, noise: seq<seq<real>>)
    requires |t.names| == 4
    requires |noise| == 4 && forall k :: 0 <= k < 4 ==> |noise[k]| == |t.rows|
    ensures MapRows(m, Noised(t, noise, 4)) == Ok(Noised(MapRows(m, t).value, MixedNoise(m, noise, |t.rows|), 4))
  {
    var lhs := MapRows(m, Noised(t, noise, 4)).value;
    var rhs := Noised(MapRows(m, t).value, MixedNoise(m, noise, |t.rows|), 4);
    forall r | 0 <= r < |t.rows| ensures lhs.rows[r] == rhs.rows[r] {
      var sample := [noise[0][r], noise[1][r], noise[2][r], noise[3][r]];
      assert Noised(t, noise, 4).rows[r] == Plus(t.rows[r], sample);
      forall k | 0 <= k < 4 ensures lhs.rows[r][k] == rhs.rows[r][k] {
        Dot4Plus(m[k], t.rows[r], sample);
      }
    }
    assert lhs.rows == rhs.rows;
  }

  // ----------------------------------------------------------- applyCrossTalk

  /** `M * rand_dev` after `np.fill_diagonal(rand_dev, 1)`: the off-diagonal
      entries are scaled by the deviation, the diagonal is M's own. */
  function Perturbed(m: Mat4, dev: Mat4): (p: Mat4)
    ensures forall i :: 0 <= i < 4 ==> p[i][i] == m[i][i]
    ensures forall i, j :: 0 <= i < 4 && 0 <= j < 4 && i != j ==> p[i][j] == m[i][j] * dev[i][j]
  {
    var filled := seq(4, i requires 0 <= i < 4 => seq(4, j requires 0 <= j < 4 => if i == j then 1.0 else dev[i][j]));
    seq(4, i requires 0 <= i < 4 => seq(4, j requires 0 <= j < 4 => m[i][j] * filled[i][j]))
  }

  /** Blocks of `width` samples in a trace of `len` samples (the last may be short). */
  function Blocks(len: nat, width: int): nat requires width > 0 { (len + width - 1) / width }

  /** `applyCrossTalk(data, M, width)`: the samples go in blocks of `width`, each
      block multiplied by M scaled by its own deviation draw. `range` refuses a
      zero step (ValueError) and yields nothing for a negative one; a short last
      block reads a sample past the end (KeyError); samples that are not
      four-vectors cannot be multiplied (ValueError). */
  function AppliedCrossTalk(t: Table, m: Mat4, width: int, devs: seq<Mat4>): (r: Result<Table>)
    requires width > 0 ==> |devs| == Blocks(|t.rows|, width)
    ensures r.Ok? ==> r.value.names == t.names && |r.value.rows| == |t.rows|
  {
    if width == 0 then Err(ValueError)
    else if width < 0 || |t.rows| == 0 then Ok(t)
    else if |t.names| != 4 then Err(ValueError)
    else if |t.rows| % width != 0 then Err(KeyError)
    else
      BlockIndicesInRange(|t.rows|, width);
      var g := Grid(t.names, seq(|t.rows|, k requires 0 <= k < |t.rows| => MatVec(Perturbed(m, devs[k / width]), t.rows[k])));
      assert IsRect(g);
      Ok(g)
  }

  lemma MulAssoc(a: int, b: int, c: int)
    ensures a * b * c == a * (b * c)
  {
  }

  lemma MulNonneg(a: int, b: int)
    requires a >= 0 && b >= 0
    ensures a * b >= 0
  {
  }

  lemma MulSub(a: int, b: int, w: int)
    ensures (a - b) * w == a * w - b * w
  {
  }

  /** Euclidean division of `q * width + j` with `0 <= j < width`. */
  lemma BlockIndex(q: nat, width: nat, j: nat)
    requires j < width
    ensures (q * width + j) / width == q && (q * width + j) % width == j
  {
    var k := q * width + j;
    var d := k / width;
    assert d * width + k % width == k;
    MulSub(q, d, width);
    if d < q {
      MulNonneg(q - d - 1, width);
      MulSub(q - d, 1, width);
    } else if d > q {
      MulNonneg(d - q - 1, width);
      MulSub(d - q, 1, width);
    }
  }

  /** Below `p` whole blocks lies block index less than `p`. */
  lemma DivBelow(k: nat, width: nat, p: nat)
    requires width > 0 && k < p * width
    ensures k / width < p
  {
    var d := k / width;
    assert d * width + k % width == k;
    if d >= p {
      MulNonneg(d - p, width);
      MulSub(d, p, width);
    }
  }

  /** At least `p` whole blocks give a block count of at least `p`. */
  lemma DivAtLeast(x: nat, width: nat, p: nat)
    requires width > 0 && p * width <= x
    ensures x / width >= p
  {
    var d := x / width;
    assert d * width + x % width == x;
    if d < p {
      MulNonneg(p - d - 1, width);
      MulSub(p - d, 1, width);
      MulSub(p, d, width);
    }
  }

  /** A whole number of blocks splits into exactly that many blocks. */
  lemma WholeBlocks(len: nat, width: nat)
    requires width > 0 && len % width == 0
    ensures Blocks(len, width) * width == len
  {
    var p := len / width;
    assert p * width == len;
    BlockIndex(p, width, width - 1);
  }

  /** In a whole number of blocks every sample's block has a deviation draw. */
  lemma BlockIndicesInRange(len: nat, width: int)
    requires width > 0 && len % width == 0
    ensures forall k :: 0 <= k < len ==> k / width < Blocks(len, width)
  {
    WholeBlocks(len, width);
    forall k | 0 <= k < len ensures k / width < Blocks(len, width) {
      DivBelow(k, width, Blocks(len, width));
    }
  }

  lemma MultipleMod(q: nat, width: nat)
    requires width > 0
    ensures (q * width) % width == 0
  {
    BlockIndex(q, width, 0);
  }

  lemma InsideBlock(q: nat, width: nat, len: nat)
    requires width > 0 && q * width < len < q * width + width
    ensures len % width != 0
  {
    BlockIndex(q, width, len - q * width);
  }

  /** The first `upto` samples have been multiplied by their block's matrix,
      the others are untouched. */
  predicate MixedUpTo(data: Table, m: Mat4, width: int, devs: seq<Mat4>, rows: seq<seq<real>>, upto: nat)
    requires width > 0
  {
    && |rows| == |data.rows| && upto <= |rows|
    && (forall k :: 0 <= k < upto ==>
          k / width < |devs| && |data.rows[k]| == 4 && rows[k] == MatVec(Perturbed(m, devs[k / width]), data.rows[k]))
    && (forall k :: upto <= k < |rows| ==> rows[k] == data.rows[k])
  }

  /** The inner loop `for j in range(width)` for block q (samples from `q * width`). */
  method MixBlock(data: Table, m: Mat4, width: int, devs: seq<Mat4>, rows: seq<seq<real>>, q: nat) returns (r: Result<seq<seq<real>>>)
    requires width > 0 && q < |devs| && q * width < |data.rows|
    requires MixedUpTo(data, m, width, devs, rows, q * width)
    requires q > 0 ==> |data.names| == 4
    ensures r.Ok? ==> |data.names| == 4 && q * width + width <= |data.rows| && MixedUpTo(data, m, width, devs, r.value, q * width + width)
    ensures r.Err? ==> (r.error == ValueError && |data.names| != 4) || (r.error == KeyError && |data.names| == 4 && |data.rows| % width != 0)
  {
    var i := q * width;
    var p := Perturbed(m, devs[q]);
    var mixed := rows;
    for j := 0 to width
      invariant i + j <= |data.rows| && MixedUpTo(data, m, width, devs, mixed, i + j)
      invariant j > 0 || q > 0 ==> |data.names| == 4
    {
      if i + j >= |data.rows| {
        InsideBlock(q, width, |data.rows|);
        return Err(KeyError);
      }
      if |data.names| != 4 {
        return Err(ValueError);
      }
      BlockIndex(q, width, j);
      mixed := mixed[i + j := MatVec(p, mixed[i + j])];
    }
    return Ok(mixed);
  }

  /** The model of `applyCrossTalk`: the outer loop steps `i` by `width` and
      rewrites one block of samples per pass. */
  method ApplyCrossTalk(data: Table, m: Mat4, width: int, devs: seq<Mat4>) returns (r: Result<Table>)
    requires width > 0 ==> |devs| == Blocks(|data.rows|, width)
    ensures r == AppliedCrossTalk(data, m, width, devs)
  {
    if width == 0 {
      return Err(ValueError);
    }
    if width < 0 {
      return Ok(data);
    }
    var len := |data.rows|;
    var rows := data.rows;
    var i := 0;
    var q: nat := 0;
    while i < len
      invariant i == q * width && i <= len
      invariant MixedUpTo(data, m, width, devs, rows, i)
      invariant q > 0 ==> |data.names| == 4
      decreases len - i
    {
      assert q < |devs| by { DivAtLeast(len + width - 1, width, q + 1); }
      var block := MixBlock(data, m, width, devs, rows, q);
      if block.Err? {
        return Err(block.error);
      }
      rows := block.value;
      MulSub(q + 1, 1, width);
      i := i + width;
      q := q + 1;
    }
    if len == 0 {
      return Ok(data);
    }
    MultipleMod(q, width);
    assert q > 0 && |data.names| == 4 && len % width == 0;
    var g := Grid(data.names, rows);
    assert IsRect(g);
    ghost var spec := AppliedCrossTalk(data, m, width, devs);
    assert spec.Ok? && spec.value.rows == rows by {
      forall k | 0 <= k < len ensures spec.value.rows[k] == rows[k] {
      }
    }
    return Ok(g);
  }

  /** With every deviation draw equal to 1 the blocks all use M itself, so the
      result is the plain product `(M @ data.T).T`. */
  lemma UnitDeviationIsPlainMixing(t: Table, m: Mat4, width: int, devs: seq<Mat4>)
    requires width > 0 && |devs| == Blocks(|t.rows|, width)
    requires |t.names| == 4 && |t.rows| % width == 0
    requires forall b, i, j :: 0 <= b < |devs| && 0 <= i < 4 && 0 <= j < 4 ==> devs[b][i][j] == 1.0
    ensures AppliedCrossTalk(t, m, width, devs) == MapRows(m, t)
  {
    forall b | 0 <= b < |devs| ensures Perturbed(m, devs[b]) == m {
      var p := Perturbed(m, devs[b]);
      assert forall i, j :: 0 <= i < 4 && 0 <= j < 4 ==> p[i][j] == m[i][j];
      assert forall i :: 0 <= i < 4 ==> p[i] == m[i];
    }
    if |t.rows| > 0 {
      var a := AppliedCrossTalk(t, m, width, devs).value;
      var b := MapRows(m, t).value;
      BlockIndicesInRange(|t.rows|, width);
      assert a.rows == b.rows;
    }
  }
}
