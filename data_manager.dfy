/** app/ui/managers/data_manager.py: the per-file matrices and sequence
    information the GUI keeps, every map keyed by the text before the file
    name's first ".". The `.info` side files are not part of this model. */
module DataManagement {
  import opened PyCore
  import opened PyStr
  import opened Matrix
  import opened Naming
  import AppUtils
  import Registry

  /** One entry of `sequence_info`: a dict in which each field may be absent. */
  datatype SequenceInfo = SequenceInfo(
    dataPoints: Option<int>,
    dyeNames: Option<seq<string>>,
    smooth: Option<bool>,
    baseline: Option<bool>,
    algorithm: Option<string>,
    difference: Option<real>)

  /** `{}` */
  function NoInfo(): SequenceInfo { SequenceInfo(None, None, None, None, None, None) }

  /** The entry after `store_sequence_info`: points and dyes always replaced
      (a missing or empty dye list becomes `[]`), the three processing fields
      replaced only when given. */
  function WithSequenceInfo(i: SequenceInfo, dataPoints: int, dyeNames: Option<seq<string>>,
                            smooth: Option<bool>, baseline: Option<bool>, algorithm: Option<string>): SequenceInfo
  {
    SequenceInfo(
      Some(dataPoints),
      Some(if dyeNames.Some? && |dyeNames.value| > 0 then dyeNames.value else []),
      if smooth.Some? then smooth else i.smooth,
      if baseline.Some? then baseline else i.baseline,
      if algorithm.Some? then algorithm else i.algorithm,
      i.difference)
  }

  /** Points and dyes are always replaced and never left absent; a
      processing field is replaced exactly when it is given, so storing with
      none keeps those recorded earlier; the matrix difference is never
      touched; and storing twice with the same arguments is storing once. */
  lemma SequenceInfoUpdates(i: SequenceInfo, n: int, d: Option<seq<string>>, s: Option<bool>, b: Option<bool>, a: Option<string>)
    ensures var j := WithSequenceInfo(i, n, d, s, b, a);
      j.dataPoints == Some(n) && j.dyeNames.Some? && (d.Some? && |d.value| > 0 ==> j.dyeNames == d) &&
      (d.None? || |d.value| == 0 ==> j.dyeNames == Some([])) && j.difference == i.difference
    ensures var j := WithSequenceInfo(i, n, d, s, b, a);
      (s.Some? ==> j.smooth == s) && (b.Some? ==> j.baseline == b) && (a.Some? ==> j.algorithm == a)
    ensures var j := WithSequenceInfo(i, n, d, None, None, None);
      j.smooth == i.smooth && j.baseline == i.baseline && j.algorithm == i.algorithm
    ensures var j := WithSequenceInfo(i, n, d, s, b, a);
      WithSequenceInfo(j, n, d, s, b, a) == j
  {
  }

  class DataManager {
    var currentCleanBase: Option<string>
    var matrices: map<string, Mat4>
    var matricesByAlgorithm: map<string, map<string, Mat4>>
    var originals: map<string, Mat4>
    var info: map<string, SequenceInfo>
    var infoByAlgorithm: map<string, map<string, SequenceInfo>>

    constructor ()
      ensures currentCleanBase.None?
      ensures matrices == map[] && matricesByAlgorithm == map[] && originals == map[]
      ensures info == map[] && infoByAlgorithm == map[]
    {
      currentCleanBase := None;
      matrices := map[];
      matricesByAlgorithm := map[];
      originals := map[];
      info := map[];
      infoByAlgorithm := map[];
    }

    /** `_load_original_matrix_from_srd`: nothing when an original is already
        stored under the key or the file is not registered; otherwise the
        matrix read from the file (`read`, the XML reader), each column divided
        by its sum. A read that fails, or a column that sums to zero, stores
        nothing. */
    method LoadOriginalMatrix(fileName: string, registry: Registry.DataRegistry, read: string -> Result<Mat4>)
      modifies this
      ensures var key := DotKey(fileName);
        if key in old(originals) || fileName !in registry.paths then originals == old(originals)
        else match read(registry.paths[fileName])
             case Err(_) => originals == old(originals)
             case Ok(m) =>
               originals == (if NormalizeColumns(m).Ok? then old(originals)[key := NormalizeColumns(m).value] else old(originals))
      ensures forall k :: k in originals && k !in old(originals) ==> forall c :: 0 <= c < 4 ==> ColumnSum(originals[k], c) == 1.0
      ensures matrices == old(matrices) && matricesByAlgorithm == old(matricesByAlgorithm)
      ensures info == old(info) && infoByAlgorithm == old(infoByAlgorithm) && currentCleanBase == old(currentCleanBase)
    {
      var key := DotKey(fileName);
      if key in originals {
        return;
      }
      if fileName in registry.paths {
        var m := read(registry.paths[fileName]);
        if m.Err? {
          return;
        }
        var normalized := NormalizeColumns(m.value);
        if normalized.Ok? {
          NormalizedColumnsSumToOne(m.value);
          originals := originals[key := normalized.value];
        }
      }
    }

    /** `store_crosstalk_matrix`: the matrix replaces any earlier one under
        the key; a ".srd" file also gets its original matrix loaded. */
    method StoreCrosstalkMatrix(fileName: string, m: Mat4, registry: Registry.DataRegistry, read: string -> Result<Mat4>)
      modifies this
      ensures matrices == old(matrices)[DotKey(fileName) := m]
      ensures !EndsWith(fileName, ".srd") ==> originals == old(originals)
      ensures DotKey(fileName) in old(originals) ==> originals == old(originals)
      ensures forall k :: k in old(originals) ==> k in originals && originals[k] == old(originals)[k]
      ensures forall k :: k in originals && k !in old(originals) ==> k == DotKey(fileName) && forall c :: 0 <= c < 4 ==> ColumnSum(originals[k], c) == 1.0
      ensures matricesByAlgorithm == old(matricesByAlgorithm) && info == old(info) && infoByAlgorithm == old(infoByAlgorithm)
    {
      matrices := matrices[DotKey(fileName) := m];
      if EndsWith(fileName, ".srd") {
        LoadOriginalMatrix(fileName, registry, read);
      }
    }

    /** `store_crosstalk_matrix_for_algorithm`: the nested map is created on
        demand and only the one algorithm's matrix changes. */
    method StoreCrosstalkMatrixForAlgorithm(fileName: string, algorithm: string, m: Mat4, registry: Registry.DataRegistry, read: string -> Result<Mat4>)
      modifies this
      ensures var key := DotKey(fileName);
        var inner := if key in old(matricesByAlgorithm) then old(matricesByAlgorithm)[key] else map[];
        matricesByAlgorithm == old(matricesByAlgorithm)[key := inner[algorithm := m]]
      ensures !EndsWith(fileName, ".srd") ==> originals == old(originals)
      ensures forall k :: k in old(originals) ==> k in originals && originals[k] == old(originals)[k]
      ensures matrices == old(matrices) && info == old(info) && infoByAlgorithm == old(infoByAlgorithm)
    {
      var key := DotKey(fileName);
      var inner := if key in matricesByAlgorithm then matricesByAlgorithm[key] else map[];
      matricesByAlgorithm := matricesByAlgorithm[key := inner[algorithm := m]];
      if EndsWith(fileName, ".srd") {
        LoadOriginalMatrix(fileName, registry, read);
      }
    }

    /** `store_sequence_info` */
    method StoreSequenceInfo(fileName: string, dataPoints: int, dyeNames: Option<seq<string>>,
                             smooth: Option<bool>, baseline: Option<bool>, algorithm: Option<string>)
      modifies this
      ensures var key := DotKey(fileName);
        info == old(info)[key := WithSequenceInfo(if key in old(info) then old(info)[key] else NoInfo(), dataPoints, dyeNames, smooth, baseline, algorithm)]
      ensures matrices == old(matrices) && matricesByAlgorithm == old(matricesByAlgorithm)
      ensures originals == old(originals) && infoByAlgorithm == old(infoByAlgorithm)
    {
      var key := DotKey(fileName);
      var current := if key in info then info[key] else NoInfo();
      info := info[key := WithSequenceInfo(current, dataPoints, dyeNames, smooth, baseline, algorithm)];
    }

    /** `store_sequence_info_for_algorithm`: the nested entry is created on
        demand, and its algorithm field is always the algorithm's key. */
    method StoreSequenceInfoForAlgorithm(fileName: string, algorithm: string, dataPoints: int, dyeNames: Option<seq<string>>,
                                         smooth: Option<bool>, baseline: Option<bool>)
      modifies this
      ensures var key := DotKey(fileName);
        key in infoByAlgorithm && algorithm in infoByAlgorithm[key] &&
        infoByAlgorithm[key][algorithm].algorithm == Some(algorithm) &&
        infoByAlgorithm[key][algorithm].dataPoints == Some(dataPoints)
      ensures var key := DotKey(fileName);
        var inner := if key in old(infoByAlgorithm) then old(infoByAlgorithm)[key] else map[];
        var current := if algorithm in inner then inner[algorithm] else NoInfo();
        infoByAlgorithm == old(infoByAlgorithm)[key := inner[algorithm := WithSequenceInfo(current, dataPoints, dyeNames, smooth, baseline, Some(algorithm))]]
      ensures matrices == old(matrices) && matricesByAlgorithm == old(matricesByAlgorithm)
      ensures originals == old(originals) && info == old(info)
    {
      var key := DotKey(fileName);
      var inner := if key in infoByAlgorithm then infoByAlgorithm[key] else map[];
      var current := if algorithm in inner then inner[algorithm] else NoInfo();
      infoByAlgorithm := infoByAlgorithm[key := inner[algorithm := WithSequenceInfo(current, dataPoints, dyeNames, smooth, baseline, Some(algorithm))]];
    }

    /** `store_matrix_difference`: the mean absolute difference of the two
        matrices, recorded in the entry (created if absent); nothing else in
        the entry changes. */
    method StoreMatrixDifference(fileName: string, computed: Mat4, original: Mat4)
      modifies this
      ensures var key := DotKey(fileName);
        var before := if key in old(info) then old(info)[key] else NoInfo();
        info == old(info)[key := before.(difference := AppUtils.MatrixDifference(Some(computed), Some(original)))]
      ensures var d := info[DotKey(fileName)].difference; d.Some? && d.value >= 0.0 && (d.value == 0.0 <==> computed == original)
      ensures matrices == old(matrices) && matricesByAlgorithm == old(matricesByAlgorithm)
      ensures originals == old(originals) && infoByAlgorithm == old(infoByAlgorithm)
    {
      var key := DotKey(fileName);
      var before := if key in info then info[key] else NoInfo();
      var difference := AppUtils.MatrixDifference(Some(computed), Some(original));
      AppUtils.MatrixDifferenceZeroIffEqual(computed, original);
      info := info[key := before.(difference := difference)];
    }

    /** `store_matrix_difference_for_algorithm` */
    method StoreMatrixDifferenceForAlgorithm(fileName: string, algorithm: string, computed: Mat4, original: Mat4)
      modifies this
      ensures var key := DotKey(fileName);
        var inner := if key in old(infoByAlgorithm) then old(infoByAlgorithm)[key] else map[];
        var current := if algorithm in inner then inner[algorithm] else NoInfo();
        infoByAlgorithm == old(infoByAlgorithm)[key := inner[algorithm := current.(difference := AppUtils.MatrixDifference(Some(computed), Some(original)))]]
      ensures matrices == old(matrices) && matricesByAlgorithm == old(matricesByAlgorithm)
      ensures originals == old(originals) && info == old(info)
    {
      var key := DotKey(fileName);
      var inner := if key in infoByAlgorithm then infoByAlgorithm[key] else map[];
      var current := if algorithm in inner then inner[algorithm] else NoInfo();
      infoByAlgorithm := infoByAlgorithm[key := inner[algorithm := current.(difference := AppUtils.MatrixDifference(Some(computed), Some(original)))]];
    }

    /** `get_matrix_for_file` */
    function MatrixFor(fileName: string): Option<Mat4>
      reads this
    {
      if DotKey(fileName) in matrices then Some(matrices[DotKey(fileName)]) else None
    }

    /** `get_original_matrix_for_file` */
    function OriginalMatrixFor(fileName: string): Option<Mat4>
      reads this
    {
      if DotKey(fileName) in originals then Some(originals[DotKey(fileName)]) else None
    }

    /** `get_sequence_info_for_file` */
    function SequenceInfoFor(fileName: string): Option<SequenceInfo>
      reads this
    {
      if DotKey(fileName) in info then Some(info[DotKey(fileName)]) else None
    }

    /** `remove_data_for_file`: the key leaves all five maps; no other key
        is touched. */
    method RemoveDataForFile(base: string)
      modifies this
      ensures matrices == old(matrices) - {base} && originals == old(originals) - {base} && info == old(info) - {base}
      ensures matricesByAlgorithm == old(matricesByAlgorithm) - {base} && infoByAlgorithm == old(infoByAlgorithm) - {base}
      ensures currentCleanBase == old(currentCleanBase)
    {
      matrices := matrices - {base};
      originals := originals - {base};
      info := info - {base};
      matricesByAlgorithm := matricesByAlgorithm - {base};
      infoByAlgorithm := infoByAlgorithm - {base};
    }
  }

  /** Whatever a file name's extension, what is stored for it is found again
      under every name with the same key, and an original matrix that was
      loaded has columns summing to one. */
  method StoreThenGet(registry: Registry.DataRegistry, read: string -> Result<Mat4>, stem: string, ext: string, other: string, m: Mat4)
    returns (stored: Option<Mat4>, viaOther: Option<Mat4>, original: Option<Mat4>)
    requires !Contains(stem, ".")
    requires DotKey(other) == stem
    ensures stored == Some(m) && viaOther == Some(m)
    ensures original.Some? ==> forall c :: 0 <= c < 4 ==> ColumnSum(original.value, c) == 1.0
  {
    var d := new DataManager();
    DotKeyOfNamed(stem, ext);
    d.StoreCrosstalkMatrix(stem + "." + ext, m, registry, read);
    stored := d.MatrixFor(stem + "." + ext);
    viaOther := d.MatrixFor(other);
    original := d.OriginalMatrixFor(stem + "." + ext);
  }

  /** After `remove_data_for_file(base)` every getter returns None for any
      file whose key is `base`, and answers as before for every other file. */
  method RemoveThenGet(d: DataManager, base: string, fileName: string, otherName: string)
    returns (matrix: Option<Mat4>, original: Option<Mat4>, sequenceInfo: Option<SequenceInfo>, otherMatrix: Option<Mat4>)
    modifies d
    requires DotKey(fileName) == base && DotKey(otherName) != base
    ensures matrix.None? && original.None? && sequenceInfo.None?
    ensures otherMatrix == old(d.MatrixFor(otherName))
  {
    d.RemoveDataForFile(base);
    matrix := d.MatrixFor(fileName);
    original := d.OriginalMatrixFor(fileName);
    sequenceInfo := d.SequenceInfoFor(fileName);
    otherMatrix := d.MatrixFor(otherName);
  }
}
