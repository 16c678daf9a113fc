/** app/ui/operations/file_operations.py: the main window's file list and
    what loading, opening, generating and deleting files does to it and to
    the data registry. The directory listings, the file dialog's choice and
    the generator's random draws are parameters; copying and writing files
    on disk is not modelled. */
module FileOperations {
  import opened PyCore
  import opened PyStr
  import opened PyPath
  import opened Frames
  import opened Naming
  import opened Registry
  import Dialogs
  import Kernels
  import GenerateUtils

  const ProcessedDir := "processed_sequences"

  /** The fixed peak shape `generate_test_data` asks for. */
  const TestPeakWidth: real := 1.3
  const TestPeakHeight: real := 1000.0

  /** An entry of `os.listdir(processed_dir)`: its name, whether it is a
      directory, and the names listed inside it. */
  datatype Folder = Folder(name: string, isDir: bool, files: seq<string>)

  // ------------------------------------------------------ load_processed_files

  /** A `.csv` or `.srd` file, in any letter case. */
  predicate IsDataFile(f: string) {
    EndsWith(Lower(f), ".csv") || EndsWith(Lower(f), ".srd")
  }

  /** A data file is a clean copy when its lower-cased name holds "_clean". */
  predicate IsCleanFile(f: string) {
    Contains(Lower(f), CleanMarker)
  }

  predicate HasRole(f: string, clean: bool) {
    IsDataFile(f) && IsCleanFile(f) == clean
  }

  /** Where the last data file of the given role is listed, if anywhere. */
  function LastWithRole(files: seq<string>, clean: bool): (r: Option<nat>)
    ensures r.None? <==> forall j :: 0 <= j < |files| ==> !HasRole(files[j], clean)
    ensures r.Some? ==>
      && r.value < |files| && HasRole(files[r.value], clean)
      && forall j :: r.value < j < |files| ==> !HasRole(files[j], clean)
  {
    LastBelow(files, |files|, clean)
  }

  /** The same search among the first n names. */
  function LastBelow(files: seq<string>, n: nat, clean: bool): (r: Option<nat>)
    requires n <= |files|
    ensures r.None? <==> forall j :: 0 <= j < n ==> !HasRole(files[j], clean)
    ensures r.Some? ==>
      && r.value < n && HasRole(files[r.value], clean)
      && forall j :: r.value < j < n ==> !HasRole(files[j], clean)
  {
    if n == 0 then None
    else if HasRole(files[n - 1], clean) then Some(n - 1)
    else LastBelow(files, n - 1, clean)
  }

  /** The search only looks at the first n names. */
  lemma {:induction false} LastBelowAgree(a: seq<string>, b: seq<string>, n: nat, clean: bool)
    requires n <= |a| && n <= |b|
    requires forall j :: 0 <= j < n ==> a[j] == b[j]
    ensures LastBelow(a, n, clean) == LastBelow(b, n, clean)
  {
    if n > 0 {
      LastBelowAgree(a, b, n - 1, clean);
    }
  }

  /** The data file of the given role that the scan of a folder keeps: the
      last one listed. */
  function Pick(files: seq<string>, clean: bool): Option<string> {
    match LastWithRole(files, clean)
    case None => None
    case Some(i) => Some(files[i])
  }

  /** One more name listed: it wins its role, or the earlier pick stays. */
  lemma PickSnoc(files: seq<string>, f: string, clean: bool)
    ensures Pick(files + [f], clean) == if HasRole(f, clean) then Some(f) else Pick(files, clean)
  {
    var g := files + [f];
    assert g[|files|] == f;
    LastBelowAgree(g, files, |files|, clean);
  }

  /** The same step, read off a longer listing. */
  lemma PickPrefix(files: seq<string>, i: nat, clean: bool)
    requires i < |files|
    ensures Pick(files[..i + 1], clean) == if HasRole(files[i], clean) then Some(files[i]) else Pick(files[..i], clean)
  {
    assert files[..i + 1] == files[..i] + [files[i]];
    PickSnoc(files[..i], files[i], clean);
  }

  /** The inner loop of `load_processed_files`: one pass over a folder's
      names, the last main file and the last clean file winning. */
  method Classify(files: seq<string>) returns (main: Option<string>, clean: Option<string>)
    ensures main == Pick(files, false) && clean == Pick(files, true)
  {
    main, clean := None, None;
    for i := 0 to |files|
      invariant main == Pick(files[..i], false) && clean == Pick(files[..i], true)
    {
      main, clean := ClassifyStep(files, i, main, clean);
    }
    assert files[..|files|] == files;
  }

  /** One pass of that loop: a data file takes the clean or the main role. */
  method ClassifyStep(files: seq<string>, i: nat, main: Option<string>, clean: Option<string>)
    returns (main': Option<string>, clean': Option<string>)
    requires i < |files|
    requires main == Pick(files[..i], false) && clean == Pick(files[..i], true)
    ensures main' == Pick(files[..i + 1], false) && clean' == Pick(files[..i + 1], true)
  {
    var f := files[i];
    PickPrefix(files, i, false);
    PickPrefix(files, i, true);
    main', clean' := main, clean;
    if IsDataFile(f) {
      if IsCleanFile(f) {
        clean' := Some(f);
      } else {
        main' := Some(f);
      }
    }
  }

  /** What one folder does to the registry's paths and the list: nothing
      unless it is a directory with a main file not yet registered; then the
      main file and, when there is one, the clean file are registered at
      their place in the folder, and the main file is listed. */
  function ScanFolder(paths: map<string, string>, f: Folder): (map<string, string>, seq<string>) {
    if !f.isDir then (paths, [])
    else
      var dir := Join(ProcessedDir, f.name);
      match Pick(f.files, false)
      case None => (paths, [])
      case Some(m) =>
        if m in paths then (paths, [])
        else
          var withMain := paths[m := Join(dir, m)];
          match Pick(f.files, true)
          case None => (withMain, [m])
          case Some(c) => (withMain[c := Join(dir, c)], [m])
  }

  /** The whole scan, folder by folder in listing order. */
  function Scan(paths: map<string, string>, folders: seq<Folder>): (map<string, string>, seq<string>)
    decreases |folders|
  {
    if folders == [] then (paths, [])
    else
      var prev := Scan(paths, folders[..|folders| - 1]);
      var step := ScanFolder(prev.0, folders[|folders| - 1]);
      (step.0, prev.1 + step.1)
  }

  /** A name whose lower-cased form holds no "_clean" does not hold it either. */
  lemma NotCleanIsPlain(m: string)
    requires !IsCleanFile(m)
    ensures !Contains(m, CleanMarker)
  {
    assert Lower(CleanMarker) == CleanMarker;
    if Contains(m, CleanMarker) {
      LowerKeepsContains(m, CleanMarker);
    }
  }

  /** One folder registers at most its main file and its clean file: it
      forgets no name, re-points no registered name that is not a clean
      copy, and lists at most one name, a main file that was not registered
      before and is afterwards. */
  lemma ScanFolderEffect(paths: map<string, string>, f: Folder)
    ensures var r := ScanFolder(paths, f);
      && paths.Keys <= r.0.Keys
      && (forall k | k in paths && !IsCleanFile(k) :: r.0[k] == paths[k])
      && (r.1 == [] || (|r.1| == 1 && r.1[0] in r.0 && r.1[0] !in paths && HasRole(r.1[0], false)))
  {
    var m := LastWithRole(f.files, false);
    if m.Some? {
      assert HasRole(f.files[m.value], false);
    }
  }

  /** The scan never forgets a registered name and never re-points a
      registered name that is not a clean copy; the names it lists are
      distinct main files that were not registered before and are afterwards. */
  lemma {:induction false} ScanProperties(paths: map<string, string>, folders: seq<Folder>)
    ensures var r := Scan(paths, folders);
      && paths.Keys <= r.0.Keys
      && (forall k | k in paths && !IsCleanFile(k) :: r.0[k] == paths[k])
      && Distinct(r.1)
      && (forall i | 0 <= i < |r.1| :: r.1[i] in r.0 && r.1[i] !in paths && HasRole(r.1[i], false))
    decreases |folders|
  {
    if folders != [] {
      var init := folders[..|folders| - 1];
      ScanProperties(paths, init);
      var prev := Scan(paths, init);
      var f := folders[|folders| - 1];
      ScanFolderEffect(prev.0, f);
      var step := ScanFolder(prev.0, f);
      assert Scan(paths, folders) == (step.0, prev.1 + step.1);
      var listed := prev.1 + step.1;
      if step.1 != [] {
        assert forall i | 0 <= i < |prev.1| :: prev.1[i] != step.1[0];
        assert listed == prev.1 + [step.1[0]];
      } else {
        assert listed == prev.1;
      }
    }
  }

  /** The names the scan lists hold no "_clean" in any letter case. */
  lemma ScanListsPlainNames(paths: map<string, string>, folders: seq<Folder>)
    ensures var r := Scan(paths, folders);
      forall i | 0 <= i < |r.1| :: IsDataFile(r.1[i]) && !Contains(r.1[i], CleanMarker)
  {
    ScanProperties(paths, folders);
    var r := Scan(paths, folders);
    forall i | 0 <= i < |r.1| ensures !Contains(r.1[i], CleanMarker) {
      NotCleanIsPlain(r.1[i]);
    }
  }

  // ------------------------------------------------------------- registry views

  /** The paths of the listed names, as the preload step collects them; the
      first unregistered name raises `KeyError` in `get_path`. */
  function PathsOf(names: seq<string>, paths: map<string, string>): (r: Result<seq<string>>)
    ensures r.Ok? <==> forall i | 0 <= i < |names| :: names[i] in paths
    ensures r.Ok? ==> |r.value| == |names| && forall i | 0 <= i < |names| :: r.value[i] == paths[names[i]]
    ensures r.Err? ==> r.error == KeyError
    decreases |names|
  {
    if names == [] then Ok([])
    else
      var init := names[..|names| - 1];
      assert forall i | 0 <= i < |init| :: init[i] == names[i];
      match PathsOf(init, paths)
      case Err(e) => Err(e)
      case Ok(ps) =>
        var last := names[|names| - 1];
        if last in paths then Ok(ps + [paths[last]]) else Err(KeyError)
  }

  /** `[f"{base}_clean.csv", f"{base}_clean.srd"]` */
  function CleanCopies(base: string): seq<string> {
    [base + CleanMarker + ".csv", base + CleanMarker + ".srd"]
  }

  /** The names `delete_file` takes out of the registry: the file itself and
      whichever clean copy of its `splitext` stem is registered. */
  function Forgotten(name: string, paths: map<string, string>): set<string> {
    {name} + set c | c in CleanCopies(Stem(name)) && c in paths
  }

  /** `f"processed_sequences/{stem}_seq/{name}"`, where an opened file is registered. */
  function DestPath(name: string): string {
    Join(Join(ProcessedDir, Stem(name) + "_seq"), name)
  }

  /** The last component of `a/b` is `b` when `b` holds no slash. */
  lemma BasenameAfterSlash(a: string, b: string)
    requires forall j :: 0 <= j < |b| ==> b[j] != '/'
    ensures Basename(a + "/" + b) == b
  {
    var d := a + "/" + b;
    var k := |a|;
    assert d[k] == '/';
    assert forall j :: k < j < |d| ==> d[j] == b[j - k - 1];
    assert LastIndexOf(d, '/') == Some(k);
    assert d[k + 1..] == b;
  }

  /** Every opened file lands in its own folder under the processed
      directory, and the last path component is the file's name again. */
  lemma DestPathShape(name: string)
    requires |name| > 0 && forall j :: 0 <= j < |name| ==> name[j] != '/'
    ensures DestPath(name) == ProcessedDir + "/" + (Stem(name) + "_seq") + "/" + name
    ensures Basename(DestPath(name)) == name
  {
    var folder := Stem(name) + "_seq";
    StemKeepsFirst(name);
    JoinRelative(ProcessedDir, folder);
    var dir := ProcessedDir + "/" + folder;
    assert dir[|dir| - 1] == 'q';
    JoinRelative(dir, name);
    BasenameAfterSlash(dir, name);
  }

  /** A stem starts like its name, so a relative name has a relative stem. */
  lemma StemKeepsFirst(name: string)
    requires |name| > 0 && name[0] != '/'
    ensures (Stem(name) + "_seq")[0] != '/'
  {
    var stem := Stem(name);
    if |stem| > 0 {
      assert stem + Ext(name) == name;
      assert stem[0] == name[0];
    }
  }

  /** The base names of the chosen files, in order. */
  function BaseNames(files: seq<string>): (r: seq<string>)
    ensures |r| == |files|
    decreases |files|
  {
    if files == [] then [] else BaseNames(files[..|files| - 1]) + [Basename(files[|files| - 1])]
  }

  /** What `open_file_dialog` does to the registry: each chosen name is
      registered at its place in the processed directory, a later file
      replacing an earlier one of the same name. */
  function Opened(paths: map<string, string>, names: seq<string>): (map<string, string>)
    decreases |names|
  {
    if names == [] then paths
    else Opened(paths, names[..|names| - 1])[names[|names| - 1] := DestPath(names[|names| - 1])]
  }

  /** After opening, the registered names are the old ones and the chosen
      ones. */
  lemma {:induction false} OpenedKeys(paths: map<string, string>, names: seq<string>)
    ensures Opened(paths, names).Keys == paths.Keys + (set n | n in names)
    decreases |names|
  {
    if names != [] {
      var init := names[..|names| - 1];
      var last := names[|names| - 1];
      OpenedKeys(paths, init);
      assert names == init + [last];
      assert (set n | n in names) == (set n | n in init) + {last};
    }
  }

  /** Every chosen name is registered at its destination, and every other
      name keeps its path. */
  lemma {:induction false} OpenedRegisters(paths: map<string, string>, names: seq<string>)
    ensures forall n | n in names :: n in Opened(paths, names) && Opened(paths, names)[n] == DestPath(n)
    ensures forall k | k in paths && k !in names :: k in Opened(paths, names) && Opened(paths, names)[k] == paths[k]
    decreases |names|
  {
    if names != [] {
      var init := names[..|names| - 1];
      var last := names[|names| - 1];
      OpenedRegisters(paths, init);
      assert names == init + [last];
      assert forall n | n in names && n != last :: n in init;
    }
  }

  /** `f"TestData_{counter}.csv"` */
  function TestDataName(counter: nat): string {
    "TestData_" + NatToString(counter) + ".csv"
  }

  /** `processed_sequences/TestData_{counter}_seq/TestData_{counter}.csv` */
  function TestDataPath(counter: nat): string {
    Join(Join(ProcessedDir, "TestData_" + NatToString(counter) + "_seq"), TestDataName(counter))
  }

  /** Generated names never repeat. */
  lemma TestDataNamesDistinct(a: nat, b: nat)
    requires a != b
    ensures TestDataName(a) != TestDataName(b)
  {
    if TestDataName(a) == TestDataName(b) {
      var sa, sb := NatToString(a), NatToString(b);
      assert TestDataName(a)[9..|TestDataName(a)| - 4] == sa;
      assert TestDataName(b)[9..|TestDataName(b)| - 4] == sb;
      NatToStringInjective(a, b);
    }
  }

  /** A generated name holds no "_clean": its only underscore is followed
      by a digit. */
  lemma TestDataNameIsPlain(a: nat)
    ensures !Contains(TestDataName(a), CleanMarker)
  {
    var d := NatToString(a);
    var s := TestDataName(a);
    assert s[8] == '_' && '0' <= s[9] <= '9';
    assert forall j | 0 <= j < |s| && j != 8 :: s[j] != '_' by {
      forall j | 0 <= j < |s| && j != 8 ensures s[j] != '_' {
        if 9 <= j < 9 + |d| {
          assert s[j] == d[j - 9];
        }
      }
    }
    ContainsIff(s, CleanMarker);
    forall k | 0 <= k ensures !OccursAt(s, CleanMarker, k) {
      if k + 6 <= |s| {
        assert s[k..k + 6][0] == s[k] && s[k..k + 6][1] == s[k + 1];
      }
    }
  }

  /** A generated name has the base name `TestData_<counter>`. */
  lemma TestDataBaseName(a: nat)
    ensures BaseName(TestDataName(a)) == "TestData_" + NatToString(a)
  {
    var stem := "TestData_" + NatToString(a);
    assert !Contains(stem, ".") by {
      ContainsIff(stem, ".");
      forall k | 0 <= k < |stem| ensures !OccursAt(stem, ".", k) {
        assert stem[k..k + 1][0] == stem[k];
      }
    }
    TestDataNameIsPlain(a);
    assert TestDataName(a) == stem + "." + "csv";
    BaseNameOfPlainName(stem, "csv");
  }

  /** What the test-data prompts let through: counts of at least 1 and a
      positive noise level. */
  predicate Prompted(p: Dialogs.TestDataParams) {
    p.n >= 1 && p.peakSpace >= 1 && p.detail >= 1 && p.noiseLevel > 0.0
  }

  /** The answers the test-data prompts let through are always a request
      the generator serves: with the fixed width 1.3 and height 1000, any
      `n`, spacing and detail of at least 1 and a positive noise level make
      `getTestData` succeed, with `n * peak_space * detail` rows. */
  lemma PromptedParamsGenerate(num: Kernels.Numerics, p: Dialogs.TestDataParams, draws: seq<GenerateUtils.PeakDraw>,
                               columns: seq<seq<real>>, noise: seq<seq<real>>)
    requires Prompted(p)
    requires GenerateUtils.Drawn(p.n, p.detail, GenerateUtils.TimeLength(p.n, p.peakSpace, p.detail), draws, columns, noise)
    ensures var r := GenerateUtils.TestData(num, p.n, p.peakSpace, TestPeakWidth, TestPeakHeight, p.detail, p.noiseLevel, draws, columns, noise);
      r.Ok? && |r.value.0.rows| == p.n * p.peakSpace * p.detail
  {
    var len := p.n * p.peakSpace * p.detail;
    assert p.peakSpace * p.n * p.detail == len;
    assert len >= 1 by {
      assert p.n * p.peakSpace >= 1;
      assert (p.n * p.peakSpace) * p.detail >= 1;
    }
    assert TestPeakWidth * p.detail as real >= 1.3;
    assert TestPeakHeight * p.noiseLevel > 0.0;
  }

  /** The folder loop of `load_processed_files`: registers what `Scan`
      says and returns the main files it lists, in order. */
  method ScanFolders(registry: DataRegistry, folders: seq<Folder>) returns (added: seq<string>)
    modifies registry
    ensures registry.paths == Scan(old(registry.paths), folders).0
    ensures added == Scan(old(registry.paths), folders).1
    ensures registry.frames == old(registry.frames)
  {
    added := [];
    for i := 0 to |folders|
      invariant registry.paths == Scan(old(registry.paths), folders[..i]).0
      invariant added == Scan(old(registry.paths), folders[..i]).1
      invariant registry.frames == old(registry.frames)
    {
      ghost var prev := Scan(old(registry.paths), folders[..i]);
      var f := folders[i];
      assert folders[..i + 1][..i] == folders[..i];
      assert Scan(old(registry.paths), folders[..i + 1]) == (ScanFolder(prev.0, f).0, prev.1 + ScanFolder(prev.0, f).1);
      assert prev.1 + [] == prev.1;
      if f.isDir {
        var dir := Join(ProcessedDir, f.name);
        var main, clean := Classify(f.files);
        if main.Some? && !registry.HasFile(main.value) {
          registry.SetFile(main.value, Join(dir, main.value));
          if clean.Some? {
            registry.SetFile(clean.value, Join(dir, clean.value));
          }
          added := added + [main.value];
        }
      }
    }
    assert folders[..|folders|] == folders;
  }

  /** The preload step of `load_processed_files`: the registered path of
      every listed name, in list order. */
  method CollectPaths(registry: DataRegistry, names: seq<string>) returns (r: Result<seq<string>>)
    ensures r == PathsOf(names, registry.paths)
  {
    var ps: seq<string> := [];
    for i := 0 to |names|
      invariant PathsOf(names[..i], registry.paths) == Ok(ps)
    {
      assert names[..i + 1][..i] == names[..i];
      var p := registry.GetPath(names[i]);
      if p.Err? {
        assert PathsOf(names, registry.paths).Err?;
        return Err(p.error);
      }
      ps := ps + [p.value];
    }
    assert names[..|names|] == names;
    r := Ok(ps);
  }

  /** The names of `order` holding no "_clean", in their order. */
  function Unmarked(order: seq<string>): (r: seq<string>)
    ensures |r| <= |order|
    ensures forall k :: k in r <==> k in order && !Contains(k, CleanMarker)
  {
    if |order| == 0 then []
    else
      var last := order[|order| - 1];
      assert order == order[..|order| - 1] + [last];
      Unmarked(order[..|order| - 1]) + if Contains(last, CleanMarker) then [] else [last]
  }

  /** Keeping the unmarked names commutes with concatenation, so the
      filter keeps the relative order of the names it keeps. */
  lemma {:induction false} UnmarkedAppend(a: seq<string>, b: seq<string>)
    ensures Unmarked(a + b) == Unmarked(a) + Unmarked(b)
    decreases |b|
  {
    if |b| > 0 {
      var b' := b[..|b| - 1];
      assert (a + b)[..|a + b| - 1] == a + b';
      UnmarkedAppend(a, b');
    } else {
      assert a + b == a;
    }
  }

  /** The first loop of `refresh_file_list`: the names holding no "_clean",
      in the order of the registry's keys. */
  method PlainNames(order: seq<string>) returns (current: seq<string>)
    ensures current == Unmarked(order)
    ensures forall k :: k in current <==> k in order && !Contains(k, CleanMarker)
  {
    current := [];
    for i := 0 to |order|
      invariant current == Unmarked(order[..i])
    {
      assert order[..i + 1][..i] == order[..i];
      if !Contains(order[i], CleanMarker) {
        current := current + [order[i]];
      }
    }
    assert order[..|order|] == order;
  }

  /** The last loop of `refresh_file_list`: each name not yet shown is
      appended, so the list keeps what it showed, gains every name, and
      gains no name twice. */
  method AppendUnlisted(shown: seq<string>, names: seq<string>) returns (r: seq<string>)
    ensures r == Listed(shown, names)
  {
    r := shown;
    for i := 0 to |names|
      invariant r == Listed(shown, names[..i])
    {
      assert names[..i + 1][..i] == names[..i];
      if names[i] !in r {
        r := r + [names[i]];
      }
    }
    assert names[..|names|] == names;
  }

  /** The entries of the list's context menu. */
  datatype MenuEntry =
    | ProcessSelectedItems
    | DeleteSelectedItems
    | RunFile(name: string)
    | RemoveCleanData(base: string)
    | DeleteItem(name: string)

  // ----------------------------------------------------------- the file list

  /** The main window's list of shown file names and its data registry. */
  class FileOperationsManager {
    const registry: DataRegistry
    /** The names shown in the list widget, top to bottom. */
    var items: seq<string>
    var testCounter: nat

    /** `__init__`: the counter of generated files starts at 1. */
    constructor (reg: DataRegistry, shown: seq<string>)
      ensures registry == reg && items == shown && testCounter == 1
    {
      registry := reg;
      items := shown;
      testCounter := 1;
    }

    /** `load_processed_files`: with no processed directory nothing
        happens; otherwise each folder is scanned and registered as `Scan`
        says, and the paths of all listed names are collected for the
        preload (raising `KeyError` at an unregistered name). */
    method LoadProcessedFiles(listing: Option<seq<Folder>>) returns (preload: Option<Result<seq<string>>>)
      modifies this, registry
      ensures listing.None? ==> preload.None? && items == old(items) && registry.paths == old(registry.paths)
      ensures listing.Some? ==>
        && registry.paths == Scan(old(registry.paths), listing.value).0
        && items == old(items) + Scan(old(registry.paths), listing.value).1
        && preload == Some(PathsOf(items, registry.paths))
      ensures registry.frames == old(registry.frames) && testCounter == old(testCounter)
    {
      if listing.None? {
        return None;
      }
      var added := ScanFolders(registry, listing.value);
      items := items + added;
      var paths := CollectPaths(registry, items);
      preload := Some(paths);
    }

    /** `refresh_file_list`: the registered names without "_clean" are
        remembered in the registry's order, the list is emptied and the
        processed directory is scanned again, and then each remembered
        name not yet listed is appended. `order` is the registry's key
        order. Afterwards the list holds every remembered name, only
        registered names, no name twice and no name holding "_clean". */
    method RefreshFileList(listing: Option<seq<Folder>>, order: seq<string>)
      requires forall k :: k in registry.paths <==> k in order
      modifies this, registry
      ensures registry.paths == (if listing.Some? then Scan(old(registry.paths), listing.value).0 else old(registry.paths))
      ensures registry.frames == old(registry.frames) && testCounter == old(testCounter)
      ensures Distinct(items)
      ensures forall i | 0 <= i < |items| :: items[i] in registry.paths && !Contains(items[i], CleanMarker)
      ensures forall k | k in old(registry.paths) && !Contains(k, CleanMarker) :: k in items
      ensures items == Listed(if listing.Some? then Scan(old(registry.paths), listing.value).1 else [], Unmarked(order))
    {
      var current := PlainNames(order);
      items := [];
      ghost var before := registry.paths;
      var _ := LoadProcessedFiles(listing);
      ghost var scanned := if listing.Some? then Scan(before, listing.value).1 else [];
      assert items == scanned;
      if listing.Some? {
        ScanProperties(before, listing.value);
        ScanListsPlainNames(before, listing.value);
      }
      var listed := AppendUnlisted(items, current);
      assert forall x :: x in listed <==> x in scanned || x in current;
      items := listed;
    }

    /** `open_file_dialog`: each chosen file is registered under its base
        name at `processed_sequences/<stem>_seq/<name>` and appended to the
        list (a name already listed is listed again). */
    method OpenFileDialog(files: seq<string>)
      modifies this, registry
      ensures registry.paths == Opened(old(registry.paths), BaseNames(files))
      ensures items == old(items) + BaseNames(files)
      ensures registry.frames == old(registry.frames) && testCounter == old(testCounter)
    {
      for i := 0 to |files|
        invariant registry.paths == Opened(old(registry.paths), BaseNames(files[..i]))
        invariant items == old(items) + BaseNames(files[..i])
        invariant registry.frames == old(registry.frames) && testCounter == old(testCounter)
      {
        assert files[..i + 1][..i] == files[..i];
        var name := Basename(files[i]);
        assert BaseNames(files[..i + 1]) == BaseNames(files[..i]) + [name];
        assert old(items) + BaseNames(files[..i + 1]) == (old(items) + BaseNames(files[..i])) + [name];
        var dest := DestPath(name);
        registry.SetFile(name, dest);
        items := items + [name];
      }
      assert files[..|files|] == files;
    }

    /** `generate_test_data`: a cancelled prompt changes nothing; otherwise
        the generated frame is registered under `TestData_<counter>.csv`
        with its path and its frame, listed, and the counter moves on by
        one. A generator error propagates and changes nothing. */
    method GenerateTestData(params: Option<Dialogs.TestDataParams>, num: Kernels.Numerics, draws: seq<GenerateUtils.PeakDraw>,
                            columns: seq<seq<real>>, noise: seq<seq<real>>) returns (r: Result<Option<string>>)
      requires params.Some? ==>
        GenerateUtils.Drawn(params.value.n, params.value.detail,
                            GenerateUtils.TimeLength(params.value.n, params.value.peakSpace, params.value.detail), draws, columns, noise)
      modifies this, registry
      ensures params.None? ==> r == Ok(None)
      ensures params.Some? ==>
        var g := GenerateUtils.TestData(num, params.value.n, params.value.peakSpace, TestPeakWidth, TestPeakHeight,
                                        params.value.detail, params.value.noiseLevel, draws, columns, noise);
        (g.Err? ==> r == Err(g.error)) && (g.Ok? ==> r.Ok? && r.value.Some?)
      ensures r.Ok? && r.value.Some? ==>
        && r.value.value == TestDataName(old(testCounter))
        && testCounter == old(testCounter) + 1
        && items == old(items) + [r.value.value]
        && registry.paths == old(registry.paths)[r.value.value := TestDataPath(old(testCounter))]
        && r.value.value in registry.frames
        && registry.frames.Keys == old(registry.frames.Keys) + {r.value.value}
        && fresh(registry.frames[r.value.value])
        && registry.frames[r.value.value].grid == GenerateUtils.TestData(num, params.value.n, params.value.peakSpace, TestPeakWidth,
             TestPeakHeight, params.value.detail, params.value.noiseLevel, draws, columns, noise).value.0
        && forall k | k in old(registry.frames) && k != r.value.value :: registry.frames[k] == old(registry.frames)[k]
      ensures !(r.Ok? && r.value.Some?) ==>
        testCounter == old(testCounter) && items == old(items) &&
        registry.paths == old(registry.paths) && registry.frames == old(registry.frames)
      ensures params.Some? && Prompted(params.value) ==> r.Ok? && r.value.Some?
    {
      if params.None? {
        return Ok(None);
      }
      var p := params.value;
      var generated := GenerateUtils.GetTestData(num, p.n, p.peakSpace, TestPeakWidth, TestPeakHeight, p.detail, p.noiseLevel,
                                                 draws, columns, noise);
      if Prompted(p) {
        PromptedParamsGenerate(num, p, draws, columns, noise);
      }
      if generated.Err? {
        return Err(generated.error);
      }
      var name := TestDataName(testCounter);
      var folder := Join(ProcessedDir, "TestData_" + NatToString(testCounter) + "_seq");
      var path := Join(folder, name);
      registry.SetFile(name, path);
      var frame := new DataFrame(generated.value.0);
      registry.SetDf(name, frame);
      items := items + [name];
      testCounter := testCounter + 1;
      r := Ok(Some(name));
    }

    /** `delete_file` for the item at `row`: the item leaves the list, and
        the registry forgets the name and the clean copies
        `<stem>_clean.csv` and `<stem>_clean.srd` of its `splitext` stem
        (a copy's frame only when its path is registered). */
    method DeleteFile(row: nat)
      requires row < |items|
      modifies this, registry
      ensures items == old(items)[..row] + old(items)[row + 1..]
      ensures registry.paths == old(registry.paths) - Forgotten(old(items)[row], old(registry.paths))
      ensures registry.frames == old(registry.frames) - Forgotten(old(items)[row], old(registry.paths))
      ensures testCounter == old(testCounter)
    {
      var name := items[row];
      var base := Stem(name);
      items := items[..row] + items[row + 1..];
      registry.Remove(name);
      ghost var afterName := registry.paths;
      DropRegistered(registry, CleanCopies(base));
      assert registry.paths == old(registry.paths) - Forgotten(name, old(registry.paths));
      assert (set c | c in CleanCopies(base) && c in afterName) - {name}
          == (set c | c in CleanCopies(base) && c in old(registry.paths)) - {name};
    }

    /** `show_context_menu`: nothing off an item; with several items
        selected, the two batch entries; otherwise run, then the removal of
        processed data exactly when a clean copy of the item's base name is
        registered, then delete. */
    method ContextMenu(row: Option<nat>, selectedCount: nat) returns (menu: Option<seq<MenuEntry>>)
      requires row.Some? ==> row.value < |items|
      ensures menu.None? <==> row.None?
      ensures menu.Some? && selectedCount > 1 ==> menu.value == [ProcessSelectedItems, DeleteSelectedItems]
      ensures menu.Some? && selectedCount <= 1 ==>
        var name := items[row.value];
        && |menu.value| >= 2
        && menu.value[0] == RunFile(name) && menu.value[|menu.value| - 1] == DeleteItem(name)
        && (RemoveCleanData(BaseName(name)) in menu.value <==> exists c :: c in CleanCopies(BaseName(name)) && c in registry.paths)
    {
      if row.None? {
        return None;
      }
      if selectedCount > 1 {
        return Some([ProcessSelectedItems, DeleteSelectedItems]);
      }
      var name := items[row.value];
      var base := BaseName(name);
      var hasClean := CheckHasCleanData(base);
      var entries := [RunFile(name)];
      if hasClean {
        entries := entries + [RemoveCleanData(base)];
      }
      menu := Some(entries + [DeleteItem(name)]);
    }

    /** `_check_has_clean_data`: whether a clean copy `<base>_clean.csv` or
        `<base>_clean.srd` is registered. */
    method CheckHasCleanData(base: string) returns (b: bool)
      ensures b <==> exists c :: c in CleanCopies(base) && c in registry.paths
    {
      var candidates := CleanCopies(base);
      for k := 0 to |candidates|
        invariant forall j | 0 <= j < k :: candidates[j] !in registry.paths
      {
        if registry.HasFile(candidates[k]) {
          return true;
        }
      }
      return false;
    }
  }

  /** The loop at the end of `delete_file`: each name that is registered
      is removed from both of the registry's dictionaries. */
  method DropRegistered(registry: DataRegistry, names: seq<string>)
    modifies registry
    ensures registry.paths == old(registry.paths) - (set c | c in names)
    ensures registry.frames == old(registry.frames) - (set c | c in names && c in old(registry.paths))
  {
    for k := 0 to |names|
      invariant registry.paths == old(registry.paths) - (set c | c in names[..k])
      invariant registry.frames == old(registry.frames) - (set c | c in names[..k] && c in old(registry.paths))
    {
      assert names[..k + 1] == names[..k] + [names[k]];
      if registry.HasFile(names[k]) {
        registry.Remove(names[k]);
      }
    }
    assert names[..|names|] == names;
  }

  /** "run.1.csv" has the `splitext` stem "run.1". */
  lemma StemOfTwoDotName()
    ensures Stem("run.1.csv") == "run.1"
  {
    assert "run.1" + "." + "csv" == "run.1.csv";
    assert !AllDots("run.1") by { assert "run.1"[0] != '.'; }
    SplitExtOfJoined("run.1", "csv");
  }

  /** "run.1.csv" has the base name "run". */
  lemma BaseNameOfTwoDotName()
    ensures BaseName("run.1.csv") == "run"
  {
    assert !Contains("run", ".") by {
      ContainsIff("run", ".");
      forall k | 0 <= k < 3 ensures !OccursAt("run", ".", k) {
        assert "run"[k..k + 1][0] == "run"[k];
      }
    }
    assert !Contains("run.1.csv", CleanMarker) by {
      ContainsIff("run.1.csv", CleanMarker);
      forall k | 0 <= k ensures !OccursAt("run.1.csv", CleanMarker, k) {
        if k + 6 <= 9 {
          assert "run.1.csv"[k..k + 6][0] == "run.1.csv"[k];
        }
      }
    }
    assert "run" + "." + "1.csv" == "run.1.csv";
    BaseNameOfPlainName("run", "1.csv");
  }

  /** The two deletion paths disagree on a name with two dots: deleting
      "run.1.csv" drops the clean copies of its `splitext` stem "run.1",
      while the context menu looks for the clean copies of the base name
      "run". */
  lemma DeletionAndMenuUseDifferentStems()
    ensures CleanCopies(Stem("run.1.csv"))[0] == "run.1" + CleanMarker + ".csv"
    ensures CleanCopies(BaseName("run.1.csv"))[0] == "run" + CleanMarker + ".csv"
    ensures CleanCopies(Stem("run.1.csv")) != CleanCopies(BaseName("run.1.csv"))
  {
    StemOfTwoDotName();
    BaseNameOfTwoDotName();
    assert |CleanCopies("run.1")[0]| != |CleanCopies("run")[0]|;
  }
}
