/** 4x4 real matrices (the crosstalk matrices) and their action on frames. */
module Matrix {
  import opened PyCore
  import opened Frames

  type Mat4 = m: seq<seq<real>> | |m| == 4 && forall r | 0 <= r < 4 :: |m[r]| == 4
    witness [[1.0, 0.0, 0.0, 0.0], [0.0, 1.0, 0.0, 0.0], [0.0, 0.0, 1.0, 0.0], [0.0, 0.0, 0.0, 1.0]]

  /** `np.eye(4)` */
  function Identity(): (m: Mat4)
    ensures forall r, c :: 0 <= r < 4 && 0 <= c < 4 ==> m[r][c] == if r == c then 1.0 else 0.0
  {
    seq(4, r => seq(4, c => if r == c then 1.0 else 0.0))
  }

  function Dot4(a: seq<real>, b: seq<real>): real
    requires |a| == 4 && |b| == 4
  {
    a[0] * b[0] + a[1] * b[1] + a[2] * b[2] + a[3] * b[3]
  }

  function Col(m: Mat4, c: nat): seq<real> requires c < 4 { [m[0][c], m[1][c], m[2][c], m[3][c]] }

  /** `a @ b` */
  function MatMul(a: Mat4, b: Mat4): Mat4 {
    seq(4, r requires 0 <= r < 4 => seq(4, c requires 0 <= c < 4 => Dot4(a[r], Col(b, c))))
  }

  /** `m @ v` for one sample (a row of the frame read as a column vector). */
  function MatVec(m: Mat4, v: seq<real>): (w: seq<real>)
    requires |v| == 4
    ensures |w| == 4 && forall r :: 0 <= r < 4 ==> w[r] == Dot4(m[r], v)
  {
    seq(4, r requires 0 <= r < 4 => Dot4(m[r], v))
  }

  lemma IdentityMatVec(v: seq<real>)
    requires |v| == 4
    ensures MatVec(Identity(), v) == v
  {
  }

  /** `(m @ df.T).T` with the column labels put back: every sample is multiplied
      by `m`; numpy refuses a frame that does not have exactly four columns. */
  function MapRows(m: Mat4, t: Table): (r: Result<Table>)
    ensures r.Ok? <==> |t.names| == 4
    ensures r.Ok? ==> r.value.names == t.names && |r.value.rows| == |t.rows|
    ensures r.Ok? ==> forall k :: 0 <= k < |t.rows| ==> r.value.rows[k] == MatVec(m, t.rows[k])
  {
    if |t.names| != 4 then Err(ValueError)
    else
      var g := Grid(t.names, seq(|t.rows|, k requires 0 <= k < |t.rows| => MatVec(m, t.rows[k])));
      assert IsRect(g);
      Ok(g)
  }

  lemma MapRowsIdentity(t: Table)
    requires |t.names| == 4
    ensures MapRows(Identity(), t) == Ok(t)
  {
    var r := MapRows(Identity(), t).value;
    assert r.rows == t.rows by {
      forall k | 0 <= k < |t.rows| ensures r.rows[k] == t.rows[k] { IdentityMatVec(t.rows[k]); }
    }
  }

  function ColumnSum(m: Mat4, c: nat): real requires c < 4 {
    m[0][c] + m[1][c] + m[2][c] + m[3][c]
  }

  /** `W / W.sum(axis=0)`: every column divided by its own sum. A zero column sum
      would make numpy produce inf/NaN entries; the model reports that as NonFinite. */
  function NormalizeColumns(m: Mat4): (r: Result<Mat4>)
    ensures r.Ok? <==> forall c :: 0 <= c < 4 ==> ColumnSum(m, c) != 0.0
    ensures r.Ok? ==> forall x, c :: 0 <= x < 4 && 0 <= c < 4 ==> r.value[x][c] * ColumnSum(m, c) == m[x][c]
  {
    if exists c :: 0 <= c < 4 && ColumnSum(m, c) == 0.0 then Err(NonFinite)
    else Ok(seq(4, x requires 0 <= x < 4 => seq(4, c requires 0 <= c < 4 => m[x][c] / ColumnSum(m, c))))
  }

  /** After normalisation every column sums to exactly one. */
  lemma NormalizedColumnsSumToOne(m: Mat4)
    requires NormalizeColumns(m).Ok?
    ensures forall c :: 0 <= c < 4 ==> ColumnSum(NormalizeColumns(m).value, c) == 1.0
  {
    forall c | 0 <= c < 4 ensures ColumnSum(NormalizeColumns(m).value, c) == 1.0 {
      NormalizedColumnSumsToOne(m, c);
    }
  }

  lemma NormalizedColumnSumsToOne(m: Mat4, c: nat)
    requires c < 4 && NormalizeColumns(m).Ok?
    ensures ColumnSum(NormalizeColumns(m).value, c) == 1.0
  {
    var n := NormalizeColumns(m).value;
    var s := ColumnSum(m, c);
    assert n[0][c] == m[0][c] / s && n[1][c] == m[1][c] / s;
    assert n[2][c] == m[2][c] / s && n[3][c] == m[3][c] / s;
    QuotientsSumToOne(m[0][c], m[1][c], m[2][c], m[3][c], s);
  }

  lemma QuotientsSumToOne(m0: real, m1: real, m2: real, m3: real, s: real)
    requires s == m0 + m1 + m2 + m3 && s != 0.0
    ensures m0 / s + m1 / s + m2 / s + m3 / s == 1.0
  {
    assert m0 / s + m1 / s + m2 / s + m3 / s == (m0 + m1 + m2 + m3) / s;
  }

  /** A matrix whose columns already sum to one is left as it is. */
  lemma NormalizeIdempotent(m: Mat4)
    requires forall c :: 0 <= c < 4 ==> ColumnSum(m, c) == 1.0
    ensures NormalizeColumns(m) == Ok(m)
  {
    var n := NormalizeColumns(m).value;
    forall x, c | 0 <= x < 4 && 0 <= c < 4 ensures n[x][c] == m[x][c] {
      assert n[x][c] * 1.0 == m[x][c];
    }
    assert forall x | 0 <= x < 4 :: n[x] == m[x];
    assert n == m;
  }
}
