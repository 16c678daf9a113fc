/** app/utils/load_utils.py: reading a trace file into a four-channel frame.
    The file itself is not read here: a CSV file arrives as its lines already
    split at ';' into cells, an SRD file as the list of its `Point` elements in
    document order. Parsing a cell as a number (`pd.to_numeric`) and an element
    text as an integer (`int(...)`) are given as functions. */
module LoadUtils {
  import opened PyCore
  import opened PyStr
  import opened PyPath
  import opened Frames

  /** The four channel labels every loader assigns, in this order. */
  function Channels(): seq<string> { ["A", "G", "C", "T"] }

  // ------------------------------------------------------ load_dataframe_by_path

  datatype Loader = CsvLoader | SrdLoader

  /** The loader chosen for a path: `.srd` in any letter case selects the SRD
      reader, every other extension (`.csv` included, none at all too) the
      CSV reader. */
  function LoaderFor(path: string): Loader {
    if Lower(Ext(path)) == ".srd" then SrdLoader else CsvLoader
  }

  /** For a file name `stem.e` the choice depends only on `e`, not on the stem
      or the directory part. */
  lemma LoaderOfJoined(stem: string, e: string)
    requires forall j :: 0 <= j < |stem| ==> stem[j] != '/'
    requires !AllDots(stem)
    requires forall j :: 0 <= j < |e| ==> e[j] != '.' && e[j] != '/'
    ensures LoaderFor(stem + "." + e) == SrdLoader <==> Lower("." + e) == ".srd"
    ensures Lower("." + e) == ".csv" ==> LoaderFor(stem + "." + e) == CsvLoader
  {
    SplitExtOfJoined(stem, e);
  }

  /** A name with no dot after its last slash has no extension and goes to the CSV reader. */
  lemma NoExtensionIsCsv(path: string)
    requires forall j :: 0 <= j < |path| ==> path[j] != '.'
    ensures LoaderFor(path) == CsvLoader
  {
    assert LastIndexOf(path, '.').None?;
    assert Ext(path) == [];
  }

  // ---------------------------------------------------------------- make_numeric

  /** `pd.to_numeric(errors="coerce")` on one cell: numbers stay, text that
      parses becomes its number, anything else becomes NaN (here `Missing`). */
  function ToNumeric(parse: string -> Option<real>, c: Cell): (r: Cell)
    ensures r.Number? || r.Missing?
  {
    match c
    case Number(n) => Number(n)
    case Text(s) => if parse(s).Some? then Number(parse(s).value) else Missing
    case Missing => Missing
  }

  /** `fillna(0.0).astype(float)` on one converted cell. */
  function Filled(c: Cell): real {
    match c
    case Number(n) => n
    case _ => 0.0
  }

  /** The float a cell ends up as: its number, or 0.0 when it cannot be parsed. */
  function NumericValue(parse: string -> Option<real>, c: Cell): real {
    Filled(ToNumeric(parse, c))
  }

  /** The frame after every column has been converted in place. */
  function Coerced(parse: string -> Option<real>, g: CellTable): (h: CellTable)
    ensures h.names == g.names && |h.rows| == |g.rows|
  {
    var h := Grid(g.names, seq(|g.rows|, r requires 0 <= r < |g.rows| =>
                  seq(|g.rows[r]|, k requires 0 <= k < |g.rows[r]| => ToNumeric(parse, g.rows[r][k]))));
    assert IsRect(h);
    h
  }

  /** The all-float frame `make_numeric` returns. */
  function Numeric(parse: string -> Option<real>, g: CellTable): (t: Table)
    ensures t.names == g.names && |t.rows| == |g.rows|
  {
    var t := Grid(g.names, seq(|g.rows|, r requires 0 <= r < |g.rows| =>
                  seq(|g.rows[r]|, k requires 0 <= k < |g.rows[r]| => NumericValue(parse, g.rows[r][k]))));
    assert IsRect(t);
    t
  }

  /** Every cell of the result is the cell's number, or 0.0 exactly when the
      cell is neither a number nor text that parses. */
  lemma NumericCells(parse: string -> Option<real>, g: CellTable, r: nat, k: nat)
    requires r < |g.rows| && k < |g.names|
    ensures Numeric(parse, g).rows[r][k] ==
      match g.rows[r][k]
      case Number(n) => n
      case Text(s) => if parse(s).Some? then parse(s).value else 0.0
      case Missing => 0.0
  {
  }

  /** A frame that is already all numbers comes back with the same values:
      `make_numeric` applied to its own result changes nothing. */
  lemma NumericIdempotent(parse: string -> Option<real>, g: CellTable)
    ensures var t := Numeric(parse, g);
      Numeric(parse, AsCells(t)) == t
  {
    var t := Numeric(parse, g);
    var u := Numeric(parse, AsCells(t));
    assert forall r :: 0 <= r < |t.rows| ==> u.rows[r] == t.rows[r];
  }

  /** A float frame seen as cells. */
  function AsCells(t: Table): (g: CellTable)
    ensures g.names == t.names && |g.rows| == |t.rows|
    ensures forall r, k :: 0 <= r < |t.rows| && 0 <= k < |t.rows[r]| ==> g.rows[r][k] == Number(t.rows[r][k])
  {
    var g := Grid(t.names, seq(|t.rows|, r requires 0 <= r < |t.rows| =>
                  seq(|t.rows[r]|, k requires 0 <= k < |t.rows[r]| => Number(t.rows[r][k]))));
    assert IsRect(g);
    g
  }

  /** `make_numeric(data)`: converts the caller's frame column by column in
      place (`data[col] = pd.to_numeric(...)` assigns into the argument), then
      returns a new all-float frame with the NaNs replaced by 0.0. */
  method MakeNumeric(parse: string -> Option<real>, data: DataFrame<Cell>) returns (t: Table)
    modifies data
    ensures data.grid == Coerced(parse, old(data.grid))
    ensures t == Numeric(parse, old(data.grid))
  {
    ghost var g := data.grid;
    var n := |data.grid.names|;
    for c := 0 to n
      invariant data.grid.names == g.names && |data.grid.rows| == |g.rows|
      invariant forall r, k :: 0 <= r < |g.rows| && 0 <= k < |g.names| ==>
        data.grid.rows[r][k] == if k < c then ToNumeric(parse, g.rows[r][k]) else g.rows[r][k]
    {
      var col := Column(data.grid, c);
      var converted := seq(|col|, r requires 0 <= r < |col| => ToNumeric(parse, col[r]));
      data.grid := WithColumn(data.grid, c, converted);
    }
    assert forall r :: 0 <= r < |g.rows| ==> data.grid.rows[r] == Coerced(parse, g).rows[r];
    var h := data.grid;
    t := Grid(h.names, seq(|h.rows|, r requires 0 <= r < |h.rows| =>
               seq(|h.rows[r]|, k requires 0 <= k < |h.rows[r]| => Filled(h.rows[r][k]))));
    assert forall r :: 0 <= r < |g.rows| ==> t.rows[r] == Numeric(parse, g).rows[r];
  }

  // ----------------------------------------------------------- load_data_from_csv

  /** The cell read for field `k` of a line: lines shorter than the frame are
      padded with NaN by the CSV reader. */
  function Field(line: seq<Cell>, k: nat): Cell {
    if k < |line| then line[k] else Missing
  }

  /** What `pd.read_csv(sep=";", header=None, usecols=[0,1,2,3], names=A,G,C,T)`
      holds before conversion: the first four fields of every line. An empty
      file, or a first line with fewer than four fields, makes `usecols` fail. */
  function CsvCells(lines: seq<seq<Cell>>): (r: Result<CellTable>)
    ensures r.Err? <==> |lines| == 0 || |lines[0]| < 4
    ensures r.Err? ==> r.error == ValueError
    ensures r.Ok? ==> r.value.names == Channels() && |r.value.rows| == |lines|
    ensures r.Ok? ==> forall i, k :: 0 <= i < |lines| && 0 <= k < 4 ==> r.value.rows[i][k] == Field(lines[i], k)
  {
    if |lines| == 0 || |lines[0]| < 4 then Err(ValueError)
    else
      var g := Grid(Channels(), seq(|lines|, i requires 0 <= i < |lines| =>
                    [Field(lines[i], 0), Field(lines[i], 1), Field(lines[i], 2), Field(lines[i], 3)]));
      assert IsRect(g);
      Ok(g)
  }

  /** `load_data_from_csv`: the four leading fields of each line, labelled
      A, G, C, T and converted to floats; fields past the fourth are ignored. */
  method LoadDataFromCsv(parse: string -> Option<real>, lines: seq<seq<Cell>>) returns (r: Result<Table>)
    ensures r.Err? <==> |lines| == 0 || |lines[0]| < 4
    ensures r.Ok? ==> r.value.names == Channels() && |r.value.rows| == |lines|
    ensures r.Ok? ==> forall i, k :: 0 <= i < |lines| && 0 <= k < 4 ==>
      r.value.rows[i][k] == NumericValue(parse, Field(lines[i], k))
  {
    var cells := CsvCells(lines);
    if cells.Err? {
      return Err(cells.error);
    }
    var data := new DataFrame(cells.value);
    var t := MakeNumeric(parse, data);
    r := Ok(t);
  }

  /** Extra fields never reach the frame: cutting every line down to its
      first four fields reads the same. */
  lemma CsvIgnoresExtraFields(lines: seq<seq<Cell>>, cut: seq<seq<Cell>>)
    requires |cut| == |lines|
    requires forall i :: 0 <= i < |lines| ==> |lines[i]| >= 4 && cut[i] == lines[i][..4]
    ensures CsvCells(cut) == CsvCells(lines)
  {
    if |lines| > 0 {
      var a := CsvCells(cut).value;
      var b := CsvCells(lines).value;
      forall i | 0 <= i < |lines| ensures a.rows[i] == b.rows[i] {
        assert Field(cut[i], 0) == Field(lines[i], 0);
        assert Field(cut[i], 3) == Field(lines[i], 3);
      }
      assert a.rows == b.rows;
    }
  }

  // ----------------------------------------------------------- load_data_from_srd

  /** A `Point` element: the texts of the `int` children of its `Data` child,
      or None when it has no `Data` child. */
  datatype Point = Point(data: Option<seq<string>>)

  /** `[int(value.text) for value in ...]`: fails with ValueError on the first
      text that is not an integer. */
  function IntRow(toInt: string -> Option<int>, texts: seq<string>): (r: Result<seq<int>>)
    ensures r.Ok? ==> |r.value| == |texts|
    ensures r.Ok? ==> forall k :: 0 <= k < |texts| ==> toInt(texts[k]) == Some(r.value[k])
    ensures r.Err? ==> r.error == ValueError && exists k :: 0 <= k < |texts| && toInt(texts[k]).None?
  {
    if |texts| == 0 then Ok([])
    else
      match IntRow(toInt, texts[..|texts| - 1])
      case Err(e) => Err(e)
      case Ok(front) =>
        match toInt(texts[|texts| - 1])
        case None => Err(ValueError)
        case Some(v) => Ok(front + [v])
  }

  /** The points that carry data, in document order. */
  function WithData(points: seq<Point>): (r: seq<seq<string>>)
    ensures |r| <= |points|
  {
    if |points| == 0 then []
    else
      var front := WithData(points[..|points| - 1]);
      match points[|points| - 1].data
      case None => front
      case Some(texts) => front + [texts]
  }

  /** The integer rows the SRD reader concatenates: one per point with data,
      in document order. A row that is not an integer or does not have exactly
      four values makes the frame constructor fail with ValueError. */
  function SrdRows(toInt: string -> Option<int>, points: seq<Point>): (r: Result<seq<seq<int>>>)
    ensures r.Ok? ==> |r.value| == |WithData(points)|
    ensures r.Ok? ==> forall i :: 0 <= i < |r.value| ==> |r.value[i]| == 4 && IntRow(toInt, WithData(points)[i]) == Ok(r.value[i])
    ensures r.Err? ==> r.error == ValueError
  {
    if |points| == 0 then Ok([])
    else
      match SrdRows(toInt, points[..|points| - 1])
      case Err(e) => Err(e)
      case Ok(front) =>
        match points[|points| - 1].data
        case None => Ok(front)
        case Some(texts) =>
          match IntRow(toInt, texts)
          case Err(e) => Err(e)
          case Ok(row) => if |row| != 4 then Err(ValueError) else Ok(front + [row])
  }

  /** A point without data is skipped: it changes nothing in the result. */
  lemma SrdSkipsPointWithoutData(toInt: string -> Option<int>, points: seq<Point>)
    ensures SrdRows(toInt, points + [Point(None)]) == SrdRows(toInt, points)
  {
    assert (points + [Point(None)])[..|points|] == points;
  }

  /** A point with four integer values adds exactly its row, at the end. */
  lemma SrdAppendsRow(toInt: string -> Option<int>, points: seq<Point>, texts: seq<string>, row: seq<int>)
    requires IntRow(toInt, texts) == Ok(row) && |row| == 4
    requires SrdRows(toInt, points).Ok?
    ensures SrdRows(toInt, points + [Point(Some(texts))]) == Ok(SrdRows(toInt, points).value + [row])
  {
    assert (points + [Point(Some(texts))])[..|points|] == points;
  }

  /** The frame of the SRD reader's integer rows, as cells. */
  function IntFrame(rows: seq<seq<int>>): (g: CellTable)
    requires forall i :: 0 <= i < |rows| ==> |rows[i]| == 4
    ensures g.names == Channels() && |g.rows| == |rows|
  {
    var g := Grid(Channels(), seq(|rows|, i requires 0 <= i < |rows| =>
                  seq(4, k requires 0 <= k < 4 => Number(rows[i][k] as real))));
    assert IsRect(g);
    g
  }

  /** `load_data_from_srd`: starts from an empty A/G/C/T frame, concatenates
      one row per point with data, then converts to floats. */
  method LoadDataFromSrd(parse: string -> Option<real>, toInt: string -> Option<int>, points: seq<Point>)
    returns (r: Result<Table>)
    ensures r.Ok? <==> SrdRows(toInt, points).Ok?
    ensures r.Err? ==> r.error == ValueError
    ensures r.Ok? ==> r.value.names == Channels() && |r.value.rows| == |WithData(points)|
    ensures r.Ok? ==> forall i, k :: 0 <= i < |r.value.rows| && 0 <= k < 4 ==>
      r.value.rows[i][k] == SrdRows(toInt, points).value[i][k] as real
  {
    var rows: seq<seq<int>> := [];
    for p := 0 to |points|
      invariant SrdRows(toInt, points[..p]) == Ok(rows)
    {
      assert points[..p + 1][..p] == points[..p];
      match points[p].data {
        case None =>
        case Some(texts) =>
          var row := IntRow(toInt, texts);
          if row.Err? {
            assert SrdRows(toInt, points[..p + 1]).Err?;
            SrdErrorSticks(toInt, points, p + 1);
            return Err(row.error);
          }
          if |row.value| != 4 {
            SrdErrorSticks(toInt, points, p + 1);
            return Err(ValueError);
          }
          rows := rows + [row.value];
      }
    }
    assert points[..|points|] == points;
    var data := new DataFrame(IntFrame(rows));
    var t := MakeNumeric(parse, data);
    return Ok(t);
  }

  /** Once a prefix of the points fails, the whole list fails. */
  lemma {:induction false} SrdErrorSticks(toInt: string -> Option<int>, points: seq<Point>, p: nat)
    requires p <= |points| && SrdRows(toInt, points[..p]).Err?
    ensures SrdRows(toInt, points).Err?
    decreases |points| - p
  {
    if p < |points| {
      assert points[..p + 1][..p] == points[..p];
      SrdErrorSticks(toInt, points, p + 1);
    } else {
      assert points[..p] == points;
    }
  }

  // ----------------------------------------------------------------- dispatch

  /** The contents of a file as each reader would see them. */
  datatype Contents = Contents(lines: seq<seq<Cell>>, points: seq<Point>)

  /** `load_dataframe_by_path`: the reader chosen by the extension. */
  method LoadDataframeByPath(parse: string -> Option<real>, toInt: string -> Option<int>, path: string, file: Contents)
    returns (r: Result<Table>)
    ensures LoaderFor(path) == SrdLoader ==> (r.Ok? <==> SrdRows(toInt, file.points).Ok?)
    ensures LoaderFor(path) == CsvLoader ==> (r.Ok? <==> |file.lines| > 0 && |file.lines[0]| >= 4)
    ensures r.Ok? ==> r.value.names == Channels()
    ensures r.Ok? && LoaderFor(path) == CsvLoader ==> |r.value.rows| == |file.lines|
    ensures r.Ok? && LoaderFor(path) == SrdLoader ==> |r.value.rows| == |WithData(file.points)|
    ensures r.Ok? && LoaderFor(path) == CsvLoader ==> forall i, k :: 0 <= i < |file.lines| && 0 <= k < 4 ==>
      r.value.rows[i][k] == NumericValue(parse, Field(file.lines[i], k))
    ensures r.Ok? && LoaderFor(path) == SrdLoader ==> forall i, k :: 0 <= i < |r.value.rows| && 0 <= k < 4 ==>
      r.value.rows[i][k] == SrdRows(toInt, file.points).value[i][k] as real
  {
    var ext := Lower(Ext(path));
    if ext == ".csv" {
      r := LoadDataFromCsv(parse, file.lines);
    } else if ext == ".srd" {
      r := LoadDataFromSrd(parse, toInt, file.points);
    } else {
      r := LoadDataFromCsv(parse, file.lines);
    }
  }
}
