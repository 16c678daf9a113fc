/** app/ui/plotting.py: the older `PlottingManager`. Its thinning rules,
    curves and first-in-first-out frame cache are those of the renderer
    (PlotRendering) line for line; besides them it keeps the iterations of
    each processed file, decides when the Clean and Iterations tabs are
    shown, and finds the clean copy of a clicked file. The registry's
    name-to-path dictionary, its set of names, the disk and the loader are
    parameters. */
module LegacyPlotting {
  import opened PyCore
  import opened PyStr
  import opened PyDict
  import opened Frames
  import opened Naming
  import opened Iterations
  import opened PlotRendering
  import IterationManagement

  /** The extension `file_list_click` pairs with a name: what follows the
      first "_clean" up to the next one for a clean name; for a plain name
      the text between its first and second ".", or nothing without a dot. */
  function CandidateExt(name: string): string {
    if Contains(name, CleanMarker) then
      "." + SplitSecond(name, CleanMarker).value
    else
      match SplitSecond(name, ".")
      case None => ""
      case Some(e) => "." + e
  }

  /** The names a clean copy of `name` may have: base + "_clean" + ext, and
      base + "_clean.csv" as well when ext is ".srd" in any case. The
      `replace("_clean", "")` applied to the base finds nothing to replace
      (BaseHasNoMarker). */
  function CleanCandidates(name: string): seq<string> {
    var base := BaseName(name);
    var ext := CandidateExt(name);
    [base + CleanMarker + ext] + (if Lower(ext) == ".srd" then [base + CleanMarker + ".csv"] else [])
  }

  /** A base name never holds "_clean". */
  lemma BaseHasNoMarker(name: string)
    ensures !Contains(BaseName(name), CleanMarker)
  {
    BaseNameShape(name);
    if !Contains(name, CleanMarker) && Contains(BaseName(name), CleanMarker) {
      ContainsFromPrefix(name, BaseName(name), CleanMarker);
    }
  }

  /** For a plain data file "stem.e" the candidates are "stem_clean.e", and
      "stem_clean.csv" too when the extension is ".srd". */
  lemma CleanCandidatesOfPlainName(stem: string, e: string)
    requires !Contains(stem, ".") && !Contains(e, ".")
    requires !Contains(stem + "." + e, CleanMarker)
    ensures CleanCandidates(stem + "." + e) ==
      [stem + "_clean." + e] + (if Lower("." + e) == ".srd" then [stem + "_clean.csv"] else [])
  {
    var name := stem + "." + e;
    BaseNameOfPlainName(stem, e);
    SplitHeadOfJoined(stem, ".", e);
    assert Find(name, ".") == Some(|stem|);
    assert name[|stem| + 1..] == e;
    SplitHeadAbsent(e, ".");
    assert CandidateExt(name) == "." + e;
    assert stem + CleanMarker + ("." + e) == stem + "_clean." + e;
    assert stem + CleanMarker + ".csv" == stem + "_clean.csv";
  }

  /** Every candidate is a clean name with the clicked file's base name, so
      the clean tab always shows a copy of the clicked file. */
  lemma CandidatesShareBaseName(name: string)
    ensures forall c | c in CleanCandidates(name) :: Contains(c, CleanMarker) && BaseName(c) == BaseName(name)
  {
    BaseHasNoMarker(name);
    var base := BaseName(name);
    var ext := CandidateExt(name);
    BaseNameOfCleanName(base, ext);
    BaseNameOfCleanName(base, ".csv");
    assert base + CleanMarker + ext == base + CleanMarker + ext;
    assert OccursAt(base + CleanMarker + ext, CleanMarker, |base|);
    assert OccursAt(base + CleanMarker + ".csv", CleanMarker, |base|);
    ContainsIff(base + CleanMarker + ext, CleanMarker);
    ContainsIff(base + CleanMarker + ".csv", CleanMarker);
  }

  /** The loop of `file_list_click` over the candidates: the first one the
      registry holds. */
  method FindCleanCopy(name: string, registered: set<string>) returns (found: Option<string>)
    ensures found.None? <==> forall c | c in CleanCandidates(name) :: c !in registered
    ensures found.Some? ==> exists i | 0 <= i < |CleanCandidates(name)| ::
      CleanCandidates(name)[i] == found.value && found.value in registered &&
      forall j | 0 <= j < i :: CleanCandidates(name)[j] !in registered
  {
    var candidates := CleanCandidates(name);
    for i := 0 to |candidates|
      invariant forall j | 0 <= j < i :: candidates[j] !in registered
    {
      if candidates[i] in registered {
        return Some(candidates[i]);
      }
    }
    return None;
  }

  /** `clear_iteration_data(name)` pops the exact name only: the iterations
      stored for a file's clean copy survive, where the later
      `IterationManager` clears every related name. */
  lemma ExactClearKeepsCleanCopy(it: FileIterations)
    ensures var d := Put(Put(PyDict.Empty(), "a.csv", it), "a_clean.csv", it);
      "a_clean.csv" in PyDict.Remove(d, "a.csv").items && IterationManagement.Matches("a_clean.csv", "a.csv")
  {
    assert "a_clean.csv" == "a" + CleanMarker + ".csv";
    assert "a.csv" == "a" + "." + "csv" && "a"[0..1] == "a";
    BaseNameOfCleanName("a", ".csv");
    BaseNameOfPlainName("a", "csv");
  }

  class PlottingManager {
    var maxPoints: int
    var downsampleFactor: int
    var currentFactor: int
    var manual: bool
    var disabled: bool
    var lazyCache: Dict<string, Table>
    /** Whether the Clean tab exists, and the base name of the file it shows. */
    var cleanTabOpen: bool
    var currentCleanFileBase: Option<string>
    /** `iteration_results_data`: per file, its iterations by number. */
    var results: IterationManagement.Store
    /** The Iterations tab, when it exists, with the iterations last handed
        to it, and the file those belong to. */
    var iterationsTab: Option<FileIterations>
    var currentIterationsFile: Option<string>

    /** The caches are well formed, and a closed tab has no current file. */
    ghost predicate Valid()
      reads this
    {
      PyDict.Valid(lazyCache) && |lazyCache.keys| <= MaxCacheSize && PyDict.Valid(results) &&
      (!cleanTabOpen ==> currentCleanFileBase.None?) &&
      (iterationsTab.None? ==> currentIterationsFile.None?)
    }

    constructor ()
      ensures Valid()
      ensures maxPoints == DefaultMaxPoints && downsampleFactor == DefaultDownsampleFactor && currentFactor == 1
      ensures !manual && !disabled && lazyCache == PyDict.Empty()
      ensures !cleanTabOpen && currentCleanFileBase.None?
      ensures results == PyDict.Empty() && iterationsTab.None? && currentIterationsFile.None?
    {
      maxPoints := DefaultMaxPoints;
      downsampleFactor := DefaultDownsampleFactor;
      currentFactor := 1;
      manual := false;
      disabled := false;
      lazyCache := PyDict.Empty();
      cleanTabOpen := false;
      currentCleanFileBase := None;
      results := PyDict.Empty();
      iterationsTab := None;
      currentIterationsFile := None;
    }

    /** `plot_dataframe_with_theme`: the renderer's rules; the plot titles
        are not modelled. */
    method PlotDataFrame(t: Table, slider: int, white: bool) returns (r: Result<seq<Curve>>)
      modifies this
      ensures var m := Rendering(t, disabled, manual, slider, maxPoints, downsampleFactor);
        (m.Err? ==> r == Err(m.error) && currentFactor == old(currentFactor)) &&
        (m.Ok? ==>
           currentFactor == m.value.1 && r.Ok? && |r.value| == |m.value.0.names| &&
           forall i | 0 <= i < |r.value| :: r.value[i] == CurveOf(m.value.0, m.value.1, white, i))
      ensures maxPoints == old(maxPoints) && downsampleFactor == old(downsampleFactor)
      ensures manual == old(manual) && disabled == old(disabled) && lazyCache == old(lazyCache)
      ensures cleanTabOpen == old(cleanTabOpen) && currentCleanFileBase == old(currentCleanFileBase)
      ensures results == old(results) && iterationsTab == old(iterationsTab) && currentIterationsFile == old(currentIterationsFile)
    {
      var m := Rendering(t, disabled, manual, slider, maxPoints, downsampleFactor);
      if m.Err? {
        return Err(m.error);
      }
      var (d, f) := m.value;
      currentFactor := f;
      var curves: seq<Curve> := [];
      for i := 0 to |d.names|
        invariant |curves| == i
        invariant forall j | 0 <= j < i :: curves[j] == CurveOf(d, f, white, j)
      {
        curves := curves + [CurveOf(d, f, white, i)];
      }
      r := Ok(curves);
    }

    /** `cache_data`: the renderer's first-in-first-out rule. */
    method CacheData(path: string, data: Table)
      requires Valid()
      modifies this
      ensures Valid() && lazyCache == CachePut(old(lazyCache), path, data)
      ensures maxPoints == old(maxPoints) && downsampleFactor == old(downsampleFactor) && currentFactor == old(currentFactor)
      ensures manual == old(manual) && disabled == old(disabled)
      ensures cleanTabOpen == old(cleanTabOpen) && currentCleanFileBase == old(currentCleanFileBase)
      ensures results == old(results) && iterationsTab == old(iterationsTab) && currentIterationsFile == old(currentIterationsFile)
    {
      CachePutBounded(lazyCache, path, data);
      lazyCache := CachePut(lazyCache, path, data);
    }

    /** `load_data_efficiently`: a cached frame is returned without loading;
        otherwise the frame is loaded and cached. */
    method LoadDataEfficiently(path: string, load: string -> Result<Table>) returns (r: Result<Table>)
      requires Valid()
      modifies this
      ensures Valid()
      ensures path in old(lazyCache.items) ==> r == Ok(old(lazyCache.items[path])) && lazyCache == old(lazyCache)
      ensures path !in old(lazyCache.items) ==>
        r == load(path) && lazyCache == (if r.Ok? then CachePut(old(lazyCache), path, r.value) else old(lazyCache))
      ensures maxPoints == old(maxPoints) && downsampleFactor == old(downsampleFactor) && currentFactor == old(currentFactor)
      ensures manual == old(manual) && disabled == old(disabled)
      ensures cleanTabOpen == old(cleanTabOpen) && currentCleanFileBase == old(currentCleanFileBase)
      ensures results == old(results) && iterationsTab == old(iterationsTab) && currentIterationsFile == old(currentIterationsFile)
    {
      if path in lazyCache.items {
        return Ok(lazyCache.items[path]);
      }
      r := load(path);
      if r.Ok? {
        CacheData(path, r.value);
      }
    }

    /** `remove_clean_tab` */
    method RemoveCleanTab()
      requires Valid()
      modifies this
      ensures Valid() && !cleanTabOpen && currentCleanFileBase.None?
      ensures maxPoints == old(maxPoints) && downsampleFactor == old(downsampleFactor) && currentFactor == old(currentFactor)
      ensures manual == old(manual) && disabled == old(disabled) && lazyCache == old(lazyCache)
      ensures results == old(results) && iterationsTab == old(iterationsTab) && currentIterationsFile == old(currentIterationsFile)
    {
      if cleanTabOpen {
        cleanTabOpen := false;
        currentCleanFileBase := None;
      }
    }

    /** The Clean-tab part of `file_list_click`: a clean name closes the tab;
        a plain name opens it on the first registered candidate and
        remembers its own base name, or closes it when there is none. The
        loading and drawing of the frames are not modelled. */
    method UpdateCleanTab(name: string, registered: set<string>) returns (found: Option<string>)
      requires Valid()
      modifies this
      ensures Valid()
      ensures Contains(name, CleanMarker) ==> found.None?
      ensures found.Some? ==> found.value in registered && found.value in CleanCandidates(name)
      ensures !Contains(name, CleanMarker) && found.None? ==> forall c | c in CleanCandidates(name) :: c !in registered
      ensures found.Some? <==> cleanTabOpen
      ensures currentCleanFileBase == (if found.Some? then Some(BaseName(name)) else None)
      ensures maxPoints == old(maxPoints) && downsampleFactor == old(downsampleFactor) && currentFactor == old(currentFactor)
      ensures manual == old(manual) && disabled == old(disabled) && lazyCache == old(lazyCache)
      ensures results == old(results) && iterationsTab == old(iterationsTab) && currentIterationsFile == old(currentIterationsFile)
    {
      if Contains(name, CleanMarker) {
        RemoveCleanTab();
        return None;
      }
      found := FindCleanCopy(name, registered);
      if found.Some? {
        cleanTabOpen := true;
        currentCleanFileBase := Some(BaseName(name));
      } else {
        RemoveCleanTab();
      }
    }

    /** `store_iteration_data`: the iteration is stored under its number in
        the file's entry (created last in order when missing); an open tab
        showing that file is handed the file's iterations again. */
    method StoreIterationData(f: string, n: int, data: Iteration)
      requires Valid()
      modifies this
      ensures Valid()
      ensures results == Put(old(results), f, IterationManagement.Inner(old(results), f)[n := data])
      ensures iterationsTab == (if old(iterationsTab).Some? && currentIterationsFile == Some(f)
                                then Some(results.items[f]) else old(iterationsTab))
      ensures currentIterationsFile == old(currentIterationsFile)
      ensures maxPoints == old(maxPoints) && downsampleFactor == old(downsampleFactor) && currentFactor == old(currentFactor)
      ensures manual == old(manual) && disabled == old(disabled) && lazyCache == old(lazyCache)
      ensures cleanTabOpen == old(cleanTabOpen) && currentCleanFileBase == old(currentCleanFileBase)
    {
      results := Put(results, f, IterationManagement.Inner(results, f)[n := data]);
      if iterationsTab.Some? && currentIterationsFile == Some(f) {
        iterationsTab := Some(results.items[f]);
      }
    }

    /** `finalize_iteration_results`: for a file with iterations, they are
        saved next to its registered path (an unregistered file raises
        KeyError from the registry, before anything else happens), then the
        tab opens on them. Returns the path saved to, if any. */
    method FinalizeIterationResults(f: string, registry: map<string, string>) returns (r: Result<Option<string>>)
      requires Valid()
      modifies this
      ensures Valid() && results == old(results)
      ensures f !in results.items || |results.items[f]| == 0 ==>
        r == Ok(None) && iterationsTab == old(iterationsTab) && currentIterationsFile == old(currentIterationsFile)
      ensures f in results.items && |results.items[f]| > 0 && f !in registry ==>
        r == Err(KeyError) && iterationsTab == old(iterationsTab) && currentIterationsFile == old(currentIterationsFile)
      ensures f in results.items && |results.items[f]| > 0 && f in registry ==>
        r == Ok(if |registry[f]| > 0 then Some(registry[f]) else None) &&
        iterationsTab == Some(results.items[f]) && currentIterationsFile == Some(f)
      ensures maxPoints == old(maxPoints) && downsampleFactor == old(downsampleFactor) && currentFactor == old(currentFactor)
      ensures manual == old(manual) && disabled == old(disabled) && lazyCache == old(lazyCache)
      ensures cleanTabOpen == old(cleanTabOpen) && currentCleanFileBase == old(currentCleanFileBase)
    {
      if f !in results.items || |results.items[f]| == 0 {
        return Ok(None);
      }
      if f !in registry {
        return Err(KeyError);
      }
      var path := registry[f];
      r := Ok(if |path| > 0 then Some(path) else None);
      iterationsTab := Some(results.items[f]);
      currentIterationsFile := Some(f);
    }

    /** `clear_iteration_data`: None empties the store; a name pops exactly
        that key and forgets it as the current file. An open tab is closed
        when everything was cleared or no current file is left. */
    method ClearIterationData(f: Option<string>)
      requires Valid()
      modifies this
      ensures Valid()
      ensures f.None? ==> results == PyDict.Empty() && currentIterationsFile.None? && iterationsTab.None?
      ensures f.Some? ==>
        results.items == old(results).items - {f.value} &&
        (forall k :: k in results.keys <==> k in old(results).keys && k != f.value)
      ensures f.Some? ==>
        currentIterationsFile == (if old(currentIterationsFile) == f then None else old(currentIterationsFile)) &&
        iterationsTab == (if currentIterationsFile.None? then None else old(iterationsTab))
      ensures maxPoints == old(maxPoints) && downsampleFactor == old(downsampleFactor) && currentFactor == old(currentFactor)
      ensures manual == old(manual) && disabled == old(disabled) && lazyCache == old(lazyCache)
      ensures cleanTabOpen == old(cleanTabOpen) && currentCleanFileBase == old(currentCleanFileBase)
    {
      if f.None? {
        results := PyDict.Empty();
        currentIterationsFile := None;
      } else {
        results := PyDict.Remove(results, f.value);
        if currentIterationsFile == f {
          currentIterationsFile := None;
        }
      }
      if iterationsTab.Some? && (f.None? || currentIterationsFile.None?) {
        iterationsTab := None;
        currentIterationsFile := None;
      }
    }

    /** `has_iteration_data_for_file`: a stored key equal to the name or
        sharing its base name, or else an iterations file next to the
        name's registered, non-empty path (an unregistered name has none). */
    method HasIterationDataForFile(f: string, registry: map<string, string>, present: string -> bool) returns (r: bool)
      requires Valid()
      ensures r == IterationManagement.HasData(results, {}, f, registry, present)
    {
      var keys := results.keys;
      for i := 0 to |keys|
        invariant forall j :: 0 <= j < i ==> !IterationManagement.Related(keys[j], f)
      {
        if keys[i] == f || BaseName(keys[i]) == BaseName(f) {
          IterationManagement.FindKeyAt(keys, f, i);
          return true;
        }
      }
      if f !in registry {
        return false;
      }
      var path := registry[f];
      r := |path| > 0 && present(path);
    }
  }
}
