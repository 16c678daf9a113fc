/** Tabular data: a pandas DataFrame as named columns over rows of cells. */
module Frames {
  import opened PyCore

  datatype Grid<T> = Grid(names: seq<string>, rows: seq<seq<T>>)

  /** Every row has one cell per column name. */
  predicate IsRect<T>(g: Grid<T>) {
    forall r | 0 <= r < |g.rows| :: |g.rows[r]| == |g.names|
  }

  type Rect<T> = g: Grid<T> | IsRect(g) witness Grid([], [])

  /** A numeric frame, as every loader leaves it after coercion to float. */
  type Table = Rect<real>

  /** A raw cell before numeric coercion. */
  datatype Cell = Number(n: real) | Text(s: string) | Missing

  type CellTable = Rect<Cell>

  /** `df.empty`: no rows or no columns. */
  predicate Empty<T>(g: Grid<T>) { |g.rows| == 0 || |g.names| == 0 }

  /** `df[names[k]].values` */
  function Column<T>(g: Rect<T>, k: nat): (col: seq<T>)
    requires k < |g.names|
    ensures |col| == |g.rows|
    ensures forall r :: 0 <= r < |col| ==> col[r] == g.rows[r][k]
  {
    seq(|g.rows|, r requires 0 <= r < |g.rows| => g.rows[r][k])
  }

  /** `df[names[k]] = col`: replaces one column, keeping the others and the labels. */
  function WithColumn<T>(g: Rect<T>, k: nat, col: seq<T>): (h: Rect<T>)
    requires k < |g.names| && |col| == |g.rows|
    ensures h.names == g.names && |h.rows| == |g.rows|
    ensures Column(h, k) == col
    ensures forall c :: 0 <= c < |g.names| && c != k ==> Column(h, c) == Column(g, c)
  {
    var h := Grid(g.names, seq(|g.rows|, r requires 0 <= r < |g.rows| => g.rows[r][k := col[r]]));
    assert IsRect(h);
    h
  }

  /** `for k in columns[..n]: df[k] = f(df[k])`, where `f` may fail (None) and
      pandas refuses a replacement column of the wrong length (ValueError). */
  function MapColumns(t: Table, f: seq<real> -> Option<seq<real>>, n: nat): (r: Result<Table>)
    requires n <= |t.names|
    ensures r.Ok? ==> r.value.names == t.names && |r.value.rows| == |t.rows|
    ensures r.Ok? ==> forall c :: 0 <= c < n ==> f(Column(t, c)).Some? && Column(r.value, c) == f(Column(t, c)).value
    ensures r.Ok? ==> forall c :: n <= c < |t.names| ==> Column(r.value, c) == Column(t, c)
    ensures r.Err? ==> r.error == ValueError
    ensures r.Err? <==> exists c :: 0 <= c < n && !ColumnReplaceable(t, f, c)
  {
    if n == 0 then Ok(t)
    else
      match MapColumns(t, f, n - 1)
      case Err(e) => Err(e)
      case Ok(u) =>
        if !ColumnReplaceable(t, f, n - 1) then Err(ValueError)
        else Ok(WithColumn(u, n - 1, f(Column(t, n - 1)).value))
  }

  /** `f` succeeds on column c and keeps its length. */
  predicate ColumnReplaceable(t: Table, f: seq<real> -> Option<seq<real>>, c: nat)
    requires c < |t.names|
  {
    f(Column(t, c)).Some? && |f(Column(t, c)).value| == |t.rows|
  }

  /** A pandas DataFrame object: shared by reference, mutated in place by column assignment. */
  class DataFrame<T> {
    var grid: Rect<T>

    constructor (g: Rect<T>)
      ensures grid == g
    {
      grid := g;
    }

    /** `df.copy()` */
    method Copy() returns (c: DataFrame<T>)
      ensures fresh(c) && c.grid == grid
    {
      c := new DataFrame(grid);
    }
  }
}
