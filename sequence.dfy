/** app/api/sequence.py: a named trace with its frame, optional source path,
    reference mixing matrix and dye names. */
module SequenceApi {
  import opened PyCore
  import opened Frames
  import opened Matrix
  import LoadUtils
  import PyDict

  /** The labels a sequence's frame must consist of. */
  function Required(): set<string> { {"A", "G", "C", "T"} }

  /** `{"A","G","C","T"} == set(dataframe.columns)`: order is irrelevant and
      repeated labels collapse, but an extra or a missing label fails. */
  predicate HasRequiredColumns(names: seq<string>) {
    (set c | c in names) == Required()
  }

  /** A label outside A, G, C, T is refused. */
  lemma ExtraColumnRefused(names: seq<string>, extra: string)
    requires extra in names && extra !in Required()
    ensures !HasRequiredColumns(names)
  {
    assert extra in (set c | c in names);
  }

  /** A missing channel is refused. */
  lemma MissingColumnRefused(names: seq<string>, missing: string)
    requires missing in Required() && missing !in names
    ensures !HasRequiredColumns(names)
  {
    assert missing !in (set c | c in names);
  }

  /** Any arrangement of the four labels is accepted, in particular the
      A, G, C, T that every loader assigns. */
  lemma PermutedColumnsAccepted(names: seq<string>)
    requires multiset(names) == multiset(LoadUtils.Channels())
    ensures HasRequiredColumns(names)
  {
    forall c ensures c in names <==> c in LoadUtils.Channels() {
      assert c in names <==> c in multiset(names);
      assert c in LoadUtils.Channels() <==> c in multiset(LoadUtils.Channels());
    }
    assert (set c | c in names) == Required() by {
      forall c ensures c in (set c | c in names) <==> c in Required() {
        assert c in LoadUtils.Channels() <==> c == "A" || c == "G" || c == "C" || c == "T";
      }
    }
  }

  /** A cell `pd.to_numeric(errors="raise")` accepts: a number, NaN, or
      text that parses. */
  predicate Convertible(parse: string -> Option<real>, c: Cell) {
    match c
    case Number(_) => true
    case Missing => true
    case Text(s) => parse(s).Some?
  }

  /** The checks of `validate_data` for the labels in `labels`, in order. A
      label that is absent raises KeyError (which is not caught); one that
      occurs twice selects a frame, on which `pd.to_numeric` raises TypeError
      (caught: False); a column with a cell that does not convert raises
      ValueError (caught: False). */
  function CheckColumns(parse: string -> Option<real>, g: CellTable, labels: seq<string>): (r: Result<bool>)
    ensures r == Ok(true) <==> forall k :: 0 <= k < |labels| ==>
      (multiset(g.names)[labels[k]] == 1 &&
       forall i :: 0 <= i < |g.rows| ==> Convertible(parse, g.rows[i][PyDict.IndexOf(g.names, labels[k])]))
    ensures r.Err? ==> r.error == KeyError && exists k :: 0 <= k < |labels| && labels[k] !in g.names
  {
    if |labels| == 0 then Ok(true)
    else
      var l := labels[0];
      var count := multiset(g.names)[l];
      if count == 0 then
        assert l !in g.names;
        Err(KeyError)
      else
        assert l in g.names;
        var c := PyDict.IndexOf(g.names, l);
        if count > 1 then Ok(false)
        else if exists i :: 0 <= i < |g.rows| && !Convertible(parse, g.rows[i][c]) then Ok(false)
        else
          var rest := CheckColumns(parse, g, labels[1..]);
          assert forall k :: 1 <= k < |labels| ==> labels[k] == labels[1..][k - 1];
          rest
  }

  /** `validate_data` on a frame: all four channels numeric, then not empty. */
  function Validated(parse: string -> Option<real>, g: CellTable): (r: Result<bool>)
    ensures r == Ok(true) <==> |g.rows| > 0 && forall k :: 0 <= k < 4 ==>
      (var l := LoadUtils.Channels()[k];
       multiset(g.names)[l] == 1 && forall i :: 0 <= i < |g.rows| ==> Convertible(parse, g.rows[i][PyDict.IndexOf(g.names, l)]))
  {
    match CheckColumns(parse, g, LoadUtils.Channels())
    case Err(e) => Err(e)
    case Ok(ok) => if !ok then Ok(false) else Ok(|g.rows| > 0)
  }

  /** Each channel label occurs once among the loaders' labels, at its own position. */
  lemma ChannelAt(k: nat)
    requires k < 4
    ensures multiset(LoadUtils.Channels())[LoadUtils.Channels()[k]] == 1
    ensures PyDict.IndexOf(LoadUtils.Channels(), LoadUtils.Channels()[k]) == k
  {
    assert multiset(LoadUtils.Channels()) == multiset{"A", "G", "C", "T"};
  }

  /** Every cell of a numeric frame converts. */
  lemma NumbersConvert(parse: string -> Option<real>, t: Table, c: nat)
    requires c < |t.names|
    ensures forall i :: 0 <= i < |LoadUtils.AsCells(t).rows| ==> Convertible(parse, LoadUtils.AsCells(t).rows[i][c])
  {
    var g := LoadUtils.AsCells(t);
    forall i | 0 <= i < |g.rows|
      ensures Convertible(parse, g.rows[i][c])
    {
      assert g.rows[i][c] == Number(t.rows[i][c]);
    }
  }

  /** One channel of what the loaders produce passes its check. */
  lemma LoadedChannel(parse: string -> Option<real>, t: Table, k: nat)
    requires t.names == LoadUtils.Channels() && k < 4
    ensures var g := LoadUtils.AsCells(t); var l := LoadUtils.Channels()[k];
      multiset(g.names)[l] == 1 && forall i :: 0 <= i < |g.rows| ==> Convertible(parse, g.rows[i][PyDict.IndexOf(g.names, l)])
  {
    ChannelAt(k);
    NumbersConvert(parse, t, k);
  }

  /** The column checks pass on what the loaders produce. */
  lemma LoadedColumnsCheck(parse: string -> Option<real>, t: Table)
    requires t.names == LoadUtils.Channels()
    ensures CheckColumns(parse, LoadUtils.AsCells(t), LoadUtils.Channels()) == Ok(true)
  {
    var g := LoadUtils.AsCells(t);
    var labels := LoadUtils.Channels();
    forall k | 0 <= k < |labels|
      ensures multiset(g.names)[labels[k]] == 1
      ensures forall i :: 0 <= i < |g.rows| ==> Convertible(parse, g.rows[i][PyDict.IndexOf(g.names, labels[k])])
    {
      LoadedChannel(parse, t, k);
    }
  }

  /** What the loaders produce validates exactly when it has at least one row. */
  lemma LoadedFrameValidates(parse: string -> Option<real>, t: Table)
    requires t.names == LoadUtils.Channels()
    ensures Validated(parse, LoadUtils.AsCells(t)) == Ok(|t.rows| > 0)
  {
    LoadedColumnsCheck(parse, t);
  }

  class Sequence {
    var frame: DataFrame<Cell>
    var name: string
    var sourcePath: Option<string>
    var matrix: Option<Mat4>
    var dyeNames: Option<seq<string>>

    /** The field assignments of `__init__`, once the columns have been checked. */
    constructor (frame: DataFrame<Cell>, name: string, sourcePath: Option<string>, matrix: Option<Mat4>, dyeNames: Option<seq<string>>)
      ensures this.frame == frame && this.name == name && this.sourcePath == sourcePath
      ensures this.matrix == matrix && this.dyeNames == dyeNames
    {
      this.frame := frame;
      this.name := name;
      this.sourcePath := sourcePath;
      this.matrix := matrix;
      this.dyeNames := dyeNames;
    }

    /** `len(seq)`: the number of samples. */
    function Length(): nat
      reads this, frame
    {
      |frame.grid.rows|
    }

    /** `seq == other`: same name and same length; the samples are not compared. */
    predicate Equals(other: Sequence)
      reads this, frame, other, other.frame
    {
      name == other.name && Length() == other.Length()
    }

    /** `validate_data` */
    function ValidateData(parse: string -> Option<real>): Result<bool>
      reads this, frame
    {
      Validated(parse, frame.grid)
    }
  }

  /** `Sequence(dataframe, name, ...)`: ValueError unless the columns are
      exactly A, G, C, T; otherwise a sequence holding a copy of the frame. */
  method NewSequence(df: DataFrame<Cell>, name: string, sourcePath: Option<string>, matrix: Option<Mat4>, dyeNames: Option<seq<string>>)
    returns (r: Result<Sequence>)
    ensures r.Ok? <==> HasRequiredColumns(df.grid.names)
    ensures r.Err? ==> r.error == ValueError
    ensures r.Ok? ==> fresh(r.value) && fresh(r.value.frame) && r.value.frame.grid == df.grid
    ensures r.Ok? ==> r.value.name == name && r.value.matrix == matrix && r.value.dyeNames == dyeNames && r.value.sourcePath == sourcePath
  {
    if !HasRequiredColumns(df.grid.names) {
      return Err(ValueError);
    }
    var copy := df.Copy();
    var s := new Sequence(copy, name, sourcePath, matrix, dyeNames);
    return Ok(s);
  }

  /** Equality of sequences is reflexive, symmetric and transitive, and
      sequences of different lengths are never equal. */
  lemma EqualsIsEquivalence(a: Sequence, b: Sequence, c: Sequence)
    ensures a.Equals(a)
    ensures a.Equals(b) ==> b.Equals(a)
    ensures a.Equals(b) && b.Equals(c) ==> a.Equals(c)
    ensures a.Length() != b.Length() ==> !a.Equals(b)
  {
  }

  /** Two sequences built from frames of the same length under one name are
      equal whatever their samples. */
  method SameNameSameLength(df1: DataFrame<Cell>, df2: DataFrame<Cell>, name: string) returns (equal: bool)
    requires HasRequiredColumns(df1.grid.names) && HasRequiredColumns(df2.grid.names)
    requires |df1.grid.rows| == |df2.grid.rows|
    ensures equal
  {
    var a := NewSequence(df1, name, None, None, None);
    var b := NewSequence(df2, name, None, None, None);
    equal := a.value.Equals(b.value);
  }
}
