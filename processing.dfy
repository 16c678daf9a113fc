/** app/core/processing.py: where the processed form of a trace file lives on
    disk, how to tell that a file was processed already, and the
    process-and-save step itself. The file system is the `Disk` object: its
    directories and the files written to it. */
module CoreProcessing {
  import opened PyCore
  import opened PyStr
  import opened PyPath
  import opened Frames
  import opened Matrix
  import opened Kernels
  import SeqUtils

  /** The directory all processed sequences live under. */
  const SequencesBaseDir := "processed_sequences"

  /** `get_sequence_folder`: `processed_sequences/<stem>_seq` for the file
      name's stem (its base name without the extension). */
  function SequenceFolder(path: string): string {
    Join(SequencesBaseDir, Stem(Basename(path)) + "_seq")
  }

  /** The base name of `dir/name` is `name`, for a name without slashes. */
  lemma BasenameOfJoined(dir: string, name: string)
    requires forall j :: 0 <= j < |name| ==> name[j] != '/'
    ensures Basename(dir + "/" + name) == name
  {
    var p := dir + "/" + name;
    assert p[|dir|] == '/';
    assert forall j :: |dir| < j < |p| ==> p[j] == name[j - |dir| - 1];
    var k := LastIndexOf(p, '/');
    assert k == Some(|dir|);
    assert p[|dir| + 1..] == name;
  }

  /** A file `stem.e` in any directory gets the folder
      `processed_sequences/<stem>_seq`: the directory and the extension play
      no part. */
  lemma SequenceFolderOfFile(dir: string, stem: string, e: string)
    requires forall j :: 0 <= j < |stem| ==> stem[j] != '/'
    requires !AllDots(stem)
    requires forall j :: 0 <= j < |e| ==> e[j] != '.' && e[j] != '/'
    ensures SequenceFolder(dir + "/" + stem + "." + e) == "processed_sequences/" + stem + "_seq"
  {
    StemOfFileInDir(dir, stem, e);
    assert |stem| > 0 && stem[0] != '/';
    FolderOfStem(dir + "/" + stem + "." + e, stem);
  }

  /** A file whose stem is `stem` gets the folder `processed_sequences/<stem>_seq`. */
  lemma FolderOfStem(path: string, stem: string)
    requires Stem(Basename(path)) == stem && |stem| > 0 && stem[0] != '/'
    ensures SequenceFolder(path) == "processed_sequences/" + stem + "_seq"
  {
    var folder := stem + "_seq";
    assert folder[0] == stem[0];
    JoinRelative(SequencesBaseDir, folder);
    assert SequencesBaseDir + "/" == "processed_sequences/";
    assert SequencesBaseDir + "/" + folder == "processed_sequences/" + folder;
  }

  /** The stem of the base name of `dir/stem.e` is `stem`. */
  lemma StemOfFileInDir(dir: string, stem: string, e: string)
    requires forall j :: 0 <= j < |stem| ==> stem[j] != '/'
    requires !AllDots(stem)
    requires forall j :: 0 <= j < |e| ==> e[j] != '.' && e[j] != '/'
    ensures Stem(Basename(dir + "/" + stem + "." + e)) == stem
  {
    var name := stem + "." + e;
    assert dir + "/" + stem + "." + e == dir + "/" + name;
    BasenameOfJoined(dir, name);
    SplitExtOfJoined(stem, e);
  }

  /** The clean-file names looked for, in order: the file's own extension,
      then `.csv` (what an `.srd` file is saved as). */
  function CleanCandidates(path: string): (r: seq<string>)
    ensures |r| == 2
  {
    [CleanStem(path) + Ext(Basename(path)), CleanStem(path) + ".csv"]
  }

  /** `<stem>_clean` for the file name's stem. */
  function CleanStem(path: string): string {
    Stem(Basename(path)) + "_clean"
  }

  /** The candidate paths inside the sequence folder. */
  function CandidatePaths(path: string): (r: seq<string>)
    ensures |r| == 2
    ensures forall k :: 0 <= k < 2 ==> r[k] == Join(SequenceFolder(path), CleanCandidates(path)[k])
  {
    var folder := SequenceFolder(path);
    var names := CleanCandidates(path);
    [Join(folder, names[0]), Join(folder, names[1])]
  }

  /** The first path in `paths` that exists, if any. */
  function FirstExisting(paths: seq<string>, exists_: string -> bool): (r: Option<string>)
    ensures r.Some? ==> r.value in paths && exists_(r.value)
    ensures r.Some? ==> exists k :: 0 <= k < |paths| && paths[k] == r.value && forall j :: 0 <= j < k ==> !exists_(paths[j])
    ensures r.None? <==> forall k :: 0 <= k < |paths| ==> !exists_(paths[k])
  {
    if |paths| == 0 then None
    else if exists_(paths[0]) then Some(paths[0])
    else
      var rest := FirstExisting(paths[1..], exists_);
      assert rest.Some? ==> exists k :: 0 <= k < |paths| && paths[k] == rest.value && forall j :: 0 <= j < k ==> !exists_(paths[j]) by {
        if rest.Some? {
          var k :| 0 <= k < |paths[1..]| && paths[1..][k] == rest.value && forall j :: 0 <= j < k ==> !exists_(paths[1..][j]);
          assert paths[k + 1] == rest.value;
          forall j | 0 <= j < k + 1 ensures !exists_(paths[j]) {
            if j > 0 { assert paths[j] == paths[1..][j - 1]; }
          }
        }
      }
      assert rest.None? ==> forall k :: 0 <= k < |paths| ==> !exists_(paths[k]) by {
        if rest.None? {
          forall k | 0 <= k < |paths| ensures !exists_(paths[k]) {
            if k > 0 { assert paths[k] == paths[1..][k - 1]; }
          }
        }
      }
      rest
  }

  /** `is_file_already_processed`: tries the candidates in order and reports
      the first one that exists (`os.path.exists` is the predicate given). */
  method IsFileAlreadyProcessed(path: string, exists_: string -> bool) returns (found: bool, cleanPath: Option<string>)
    ensures cleanPath == FirstExisting(CandidatePaths(path), exists_)
    ensures found <==> cleanPath.Some?
  {
    var folder := SequenceFolder(path);
    var candidates := CleanCandidates(path);
    ghost var paths := CandidatePaths(path);
    for k := 0 to |candidates|
      invariant forall j :: 0 <= j < k ==> !exists_(paths[j])
    {
      var cleanPath' := Join(folder, candidates[k]);
      if exists_(cleanPath') {
        assert paths[..k + 1][..k] == paths[..k];
        FirstExistingAt(paths, exists_, k);
        return true, Some(cleanPath');
      }
    }
    return false, None;
  }

  /** When the first `k` paths do not exist and path `k` does, path `k` is the answer. */
  lemma {:induction false} FirstExistingAt(paths: seq<string>, exists_: string -> bool, k: nat)
    requires k < |paths| && exists_(paths[k])
    requires forall j :: 0 <= j < k ==> !exists_(paths[j])
    ensures FirstExisting(paths, exists_) == Some(paths[k])
    decreases k
  {
    if k > 0 {
      assert !exists_(paths[0]);
      assert paths[1..][k - 1] == paths[k];
      FirstExistingAt(paths[1..], exists_, k - 1);
    }
  }

  /** The name of the clean file: `<stem>_clean` with the file's extension,
      except that an `.srd` file (any letter case) is saved as `.csv`. */
  function CleanFileName(path: string): string {
    var ext := Ext(Basename(path));
    CleanStem(path) + (if Lower(ext) == ".srd" then ".csv" else ext)
  }

  /** The file `process_and_save` writes is one the processed-file check
      looks for: the first candidate for most files, the second for `.srd`. */
  lemma CleanFileIsCandidate(path: string)
    ensures Lower(Ext(Basename(path))) != ".srd" ==> CleanFileName(path) == CleanCandidates(path)[0]
    ensures Lower(Ext(Basename(path))) == ".srd" ==> CleanFileName(path) == CleanCandidates(path)[1]
  {
  }

  /** Once the clean file exists, the check reports the file as processed. */
  lemma SavedFileIsDetected(path: string, exists_: string -> bool)
    requires exists_(Join(SequenceFolder(path), CleanFileName(path)))
    ensures FirstExisting(CandidatePaths(path), exists_).Some?
  {
    CleanFileIsCandidate(path);
    var paths := CandidatePaths(path);
    if Lower(Ext(Basename(path))) == ".srd" {
      assert exists_(paths[1]);
    } else {
      assert exists_(paths[0]);
    }
  }

  /** What is on disk at a path: a copy of another file, or a frame written as CSV. */
  datatype FileData = Copied(source: string) | Written(t: Table)

  /** The part of the file system the processing touches. */
  class Disk {
    var dirs: set<string>
    var files: map<string, FileData>

    constructor (dirs: set<string>, files: map<string, FileData>)
      ensures this.dirs == dirs && this.files == files
    {
      this.dirs := dirs;
      this.files := files;
    }

    /** `os.path.exists` */
    predicate Exists(p: string)
      reads this
    {
      p in dirs || p in files
    }

    /** `if not os.path.exists(d): os.makedirs(d)` */
    method MakeDirsIfMissing(d: string)
      modifies this
      ensures Exists(d)
      ensures dirs == old(dirs) + (if old(Exists(d)) then {} else {d})
      ensures files == old(files)
    {
      if !Exists(d) {
        dirs := dirs + {d};
      }
    }

    /** Writing (or copying) a file to path `p`, replacing what was there. */
    method Write(p: string, contents: FileData)
      modifies this
      ensures files == old(files)[p := contents]
      ensures dirs == old(dirs)
    {
      files := files[p := contents];
    }
  }

  /** The data `process_and_save` writes: the baseline correction first (when
      asked for), then `deleteCrossTalk` with `rem_base=False`, so smoothing,
      when on, comes after the baseline here. */
  function Processed(num: Numerics, t: Table, smooth: bool, removeBaseline: bool): (r: Result<Table>)
    ensures r.Ok? ==> r.value.names == t.names && |r.value.rows| == |t.rows|
  {
    var corrected := if removeBaseline then SeqUtils.Baselined(num, t, 6) else Ok(t);
    match corrected
    case Err(e) => Err(e)
    case Ok(u) => SeqUtils.Cleaned(num, u, None, false, smooth, 21, 3)
  }

  /** Without smoothing the order does not matter: the result is what
      `deleteCrossTalk(data, rem_base=remove_baseline)` gives. */
  lemma ProcessedWithoutSmoothing(num: Numerics, t: Table, removeBaseline: bool)
    ensures Processed(num, t, false, removeBaseline) == SeqUtils.Cleaned(num, t, None, removeBaseline, false, 21, 3)
  {
  }

  /** The processing half of `process_and_save`: `data.copy()`, then
      `baseline_cor` on the copy when asked for, then `deleteCrossTalk(copy,
      rem_base=False, smooth_data=smooth)` with no callbacks and the default
      window 21 and order 3. */
  method ProcessCopy(num: Numerics, data: DataFrame<real>, smooth: bool, removeBaseline: bool) returns (r: Result<DataFrame<real>>)
    ensures r.Ok? <==> Processed(num, data.grid, smooth, removeBaseline).Ok?
    ensures r.Ok? ==> fresh(r.value) && r.value.grid == Processed(num, data.grid, smooth, removeBaseline).value
  {
    var copy := data.Copy();
    if removeBaseline {
      var corrected := SeqUtils.BaselineCor(num, copy, 6);
      if corrected.Err? {
        return Err(corrected.error);
      }
    }
    var progress, diagnostics;
    r, progress, diagnostics := SeqUtils.DeleteCrossTalk(num, copy, None, false, smooth, false, false, 21, 3);
  }

  /** The saving half of `process_and_save`: creates the sequence folder and
      copies the original file into it only when the folder is new, then
      writes the clean frame as `<stem>_clean<ext>` in it. */
  method SaveClean(disk: Disk, path: string, clean: Table) returns (cleanPath: string)
    modifies disk
    ensures cleanPath == Join(SequenceFolder(path), CleanFileName(path))
    ensures disk.Exists(SequenceFolder(path))
    ensures disk.dirs == old(disk.dirs) + (if old(disk.Exists(SequenceFolder(path))) then {} else {SequenceFolder(path)})
    ensures old(disk.Exists(SequenceFolder(path))) ==> disk.files == old(disk.files)[cleanPath := Written(clean)]
    ensures !old(disk.Exists(SequenceFolder(path))) ==>
      disk.files == old(disk.files)[Join(SequenceFolder(path), Basename(path)) := Copied(path)][cleanPath := Written(clean)]
  {
    var folder := SequenceFolder(path);
    if !disk.Exists(folder) {
      disk.MakeDirsIfMissing(folder);
      disk.Write(Join(folder, Basename(path)), Copied(path));
    }
    cleanPath := Join(folder, CleanFileName(path));
    disk.Write(cleanPath, Written(clean));
  }

  /** `process_and_save(path, data, smooth_data, remove_baseline)`: makes sure
      the base directory exists, processes a copy of `data` (the caller's
      frame is not in this method's frame, so it is left as it was), and
      saves the result. A failure in the processing leaves the files as they
      were. */
  method ProcessAndSave(num: Numerics, disk: Disk, path: string, data: DataFrame<real>, smooth: bool, removeBaseline: bool)
    returns (r: Result<(DataFrame<real>, string)>)
    modifies disk
    ensures r.Ok? <==> Processed(num, data.grid, smooth, removeBaseline).Ok?
    ensures r.Ok? ==> fresh(r.value.0) && r.value.0.grid == Processed(num, data.grid, smooth, removeBaseline).value
    ensures disk.Exists(SequencesBaseDir)
    ensures r.Ok? ==> r.value.1 == Join(SequenceFolder(path), CleanFileName(path))
    ensures r.Ok? ==> r.value.1 in disk.files && disk.files[r.value.1] == Written(r.value.0.grid)
    ensures r.Ok? ==> disk.Exists(SequenceFolder(path))
    ensures r.Err? ==> disk.files == old(disk.files)
  {
    disk.MakeDirsIfMissing(SequencesBaseDir);
    var clean := ProcessCopy(num, data, smooth, removeBaseline);
    if clean.Err? {
      return Err(clean.error);
    }
    var cleanPath := SaveClean(disk, path, clean.value.grid);
    return Ok((clean.value, cleanPath));
  }

  /** `delete_processed_sequence`: removes the sequence folder and everything
      under it. True only when the folder existed and `shutil.rmtree`
      succeeded (`fails` stands for the OSError it may raise, which is also
      what a plain file in the folder's place gives); otherwise False and
      nothing changes. */
  method DeleteProcessedSequence(disk: Disk, path: string, fails: bool) returns (removed: bool)
    modifies disk
    ensures removed <==> old(disk.Exists(SequenceFolder(path))) && old(SequenceFolder(path) in disk.dirs) && !fails
    ensures !removed ==> disk.dirs == old(disk.dirs) && disk.files == old(disk.files)
    ensures removed ==> !disk.Exists(SequenceFolder(path))
    ensures removed ==> forall p :: p in disk.files ==> !StartsWith(p, SequenceFolder(path) + "/")
    ensures removed ==> forall p :: p in old(disk.files) && !StartsWith(p, SequenceFolder(path) + "/") && p != SequenceFolder(path) ==>
      p in disk.files && disk.files[p] == old(disk.files)[p]
  {
    var folder := SequenceFolder(path);
    if disk.Exists(folder) {
      if fails || folder !in disk.dirs {
        return false;
      }
      var prefix := folder + "/";
      var files := disk.files;
      var dirs' := set d | d in disk.dirs && d != folder && !StartsWith(d, prefix);
      var files' := map p | p in files && p != folder && !StartsWith(p, prefix) :: files[p];
      assert folder !in dirs' && folder !in files';
      assert forall p :: p in files' <==> p in files && p != folder && !StartsWith(p, prefix);
      assert forall p | p in files' :: files'[p] == files[p];
      disk.dirs := dirs';
      disk.files := files';
      return true;
    } else {
      return false;
    }
  }
}
