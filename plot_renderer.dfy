/** app/ui/plotting/plot_renderer.py: `PlotRenderer` decides how strongly a
    frame is thinned before it is drawn, draws one curve per column, and
    keeps a small first-in-first-out cache of loaded frames by path, plus
    two further caches keyed by file name. The file loader is a parameter;
    the drawing itself is reduced to the curves handed to the plot. */
module PlotRendering {
  import opened PyCore
  import opened PyStr
  import opened PyPath
  import opened PyDict
  import opened PySlice
  import opened Frames

  /** The class-level defaults; `update_performance_settings` can replace both per instance. */
  const DefaultMaxPoints: int := 400000
  const DefaultDownsampleFactor: int := 10

  /** `max_cache_size`, set once when the renderer is made. */
  const MaxCacheSize: nat := 10

  /** `len(data) * len(data.columns)` */
  function TotalPoints(t: Table): nat { |t.rows| * |t.names| }

  /** `should_downsample` */
  predicate ShouldDownsample(t: Table, maxPoints: int) { TotalPoints(t) > maxPoints }

  /** `get_optimal_downsample_factor` on a point count: 1 up to the limit,
      else `min(max(1, total // limit), cap)`; a zero limit makes `//` raise. */
  function OptimalFactor(total: nat, maxPoints: int, cap: int): (r: Result<int>)
    ensures r.Err? <==> maxPoints == 0 < total
    ensures r.Err? ==> r.error == ZeroDivisionError
    ensures total <= maxPoints ==> r == Ok(1)
  {
    if total <= maxPoints then Ok(1)
    else if maxPoints == 0 then Err(ZeroDivisionError)
    else Ok(Min(Max(1, FloorDiv(total, maxPoints)), cap))
  }

  /** Over a positive limit the factor is the largest one in `[1, cap]` whose
      multiple of the limit does not exceed the point count; with a cap of at
      least 1 it always lies in `[1, cap]`. */
  lemma OptimalFactorSpec(total: nat, maxPoints: int, cap: int)
    requires OptimalFactor(total, maxPoints, cap).Ok?
    ensures var f := OptimalFactor(total, maxPoints, cap).value;
      (cap >= 1 ==> 1 <= f <= cap) &&
      (total > maxPoints ==> f <= cap) &&
      (maxPoints > 0 && total > maxPoints && cap >= 1 ==>
        f * maxPoints <= total && (f == cap || total < (f + 1) * maxPoints)) &&
      (maxPoints < 0 ==> f == Min(1, cap))
  {
    var f := OptimalFactor(total, maxPoints, cap).value;
    if maxPoints > 0 && total > maxPoints {
      var q := FloorDiv(total, maxPoints);
      assert q * maxPoints <= total < q * maxPoints + maxPoints;
      assert q >= 1;
      if cap >= 1 && f < q {
        assert f * maxPoints <= q * maxPoints by { MulMonotone(f, q, maxPoints); }
      }
    } else if maxPoints < 0 {
      var q := FloorDiv(total, maxPoints);
      assert q * maxPoints >= total > q * maxPoints + maxPoints;
      assert q <= 0;
    }
  }

  /** `data.iloc[::factor]` */
  function StridedRows(t: Table, factor: nat): (r: Table)
    requires factor > 0
    ensures r.names == t.names
    ensures |r.rows| == StrideCount(|t.rows|, factor)
    ensures forall k | 0 <= k < |r.rows| :: k * factor < |t.rows| && r.rows[k] == t.rows[k * factor]
  {
    var rows := Strided(t.rows, factor);
    var g := Grid(t.names, rows);
    assert IsRect(g);
    g
  }

  /** `downsample_data(data, factor)`: without a factor the optimal one is
      used; a factor of at most 1 leaves the frame whole and reports 1;
      otherwise every factor-th row from row 0 is kept. */
  function DownsampleData(t: Table, factor: Option<int>, maxPoints: int, cap: int): (r: Result<(Table, int)>)
    ensures r.Err? <==> factor.None? && OptimalFactor(TotalPoints(t), maxPoints, cap).Err?
    ensures r.Err? ==> r.error == ZeroDivisionError
    ensures r.Ok? ==> r.value.1 >= 1 && r.value.0.names == t.names
    ensures r.Ok? && r.value.1 == 1 ==> r.value.0 == t
    ensures r.Ok? && r.value.1 > 1 ==>
      |r.value.0.rows| == StrideCount(|t.rows|, r.value.1) &&
      forall k | 0 <= k < |r.value.0.rows| :: k * r.value.1 < |t.rows| && r.value.0.rows[k] == t.rows[k * r.value.1]
    ensures factor.Some? ==> r.Ok? && r.value.1 == Max(1, factor.value)
    ensures factor.None? && r.Ok? ==> r.value.1 == Max(1, OptimalFactor(TotalPoints(t), maxPoints, cap).value)
  {
    var f := if factor.Some? then Ok(factor.value) else OptimalFactor(TotalPoints(t), maxPoints, cap);
    match f
    case Err(e) => Err(e)
    case Ok(k) => if k <= 1 then Ok((t, 1)) else Ok((StridedRows(t, k), k))
  }

  /** The frame drawn and the factor recorded, by mode: disabled draws the
      frame whole; manual thins by the slider value when it exceeds 1;
      automatic thins only a frame over the limit, by the optimal factor. */
  function Rendering(t: Table, disabled: bool, manual: bool, slider: int, maxPoints: int, cap: int): (r: Result<(Table, int)>)
    ensures disabled ==> r == Ok((t, 1))
    ensures !disabled && manual ==> r.Ok? && r.value.1 == Max(1, slider)
    ensures !disabled && !manual && !ShouldDownsample(t, maxPoints) ==> r == Ok((t, 1))
    ensures !disabled && !manual && r.Ok? && cap >= 1 ==> 1 <= r.value.1 <= cap
    ensures r.Err? <==> !disabled && !manual && maxPoints == 0 && TotalPoints(t) > 0
    ensures r.Ok? ==> r.value.1 >= 1 && (r.value.1 == 1 ==> r.value.0 == t)
  {
    if disabled then Ok((t, 1))
    else if manual then
      if slider > 1 then DownsampleData(t, Some(slider), maxPoints, cap) else Ok((t, 1))
    else if ShouldDownsample(t, maxPoints) then
      var r := DownsampleData(t, None, maxPoints, cap);
      assert r.Ok? && cap >= 1 ==> r.value.1 <= cap by {
        if r.Ok? && cap >= 1 {
          OptimalFactorSpec(TotalPoints(t), maxPoints, cap);
        }
      }
      r
    else Ok((t, 1))
  }

  /** One drawn column: its name, x and y coordinates and pen colour. */
  datatype Curve = Curve(name: string, x: seq<real>, y: seq<real>, color: string)

  /** The pen colours: dark ones on the white theme, bright ones otherwise. */
  function Colors(white: bool): seq<string> {
    if white then ["#CC0000", "#006600", "#000080", "#CC6600"] else ["r", "g", "b", "y"]
  }

  /** The x coordinates of `n` drawn rows: `np.arange(0, n * f, f)` when the
      factor exceeds 1, else `np.arange(n)`. */
  function XCoordinates(n: nat, factor: int): (x: seq<real>)
    ensures |x| == n
    ensures forall k | 0 <= k < n :: x[k] == (k * Max(1, factor)) as real
  {
    var step := Max(1, factor);
    seq(n, k requires 0 <= k < n => (k * step) as real)
  }

  /** The curve of column `i` of a frame drawn with factor `f`. */
  function CurveOf(t: Table, f: int, white: bool, i: nat): Curve
    requires i < |t.names|
  {
    Curve(t.names[i], XCoordinates(|t.rows|, f), Column(t, i), Colors(white)[i % 4])
  }

  /** Every plotted point is a sample of the original frame drawn at its
      original row index: point `k` of column `i` is row `k * f` of that
      column, at x = `k * f`. */
  lemma PlottedPointsAreSourceSamples(t: Table, disabled: bool, manual: bool, slider: int, maxPoints: int, cap: int,
                                      white: bool, i: nat, k: nat)
    requires Rendering(t, disabled, manual, slider, maxPoints, cap).Ok?
    requires i < |t.names|
    requires k < |Rendering(t, disabled, manual, slider, maxPoints, cap).value.0.rows|
    ensures var (d, f) := Rendering(t, disabled, manual, slider, maxPoints, cap).value;
      var c := CurveOf(d, f, white, i);
      k * f < |t.rows| && c.x[k] == (k * f) as real && c.y[k] == t.rows[k * f][i] && c.name == t.names[i]
  {
    var (d, f) := Rendering(t, disabled, manual, slider, maxPoints, cap).value;
    if f == 1 {
      assert d == t;
    } else {
      if disabled || (!manual && !ShouldDownsample(t, maxPoints)) {
        assert false;
      } else if manual {
        assert d == DownsampleData(t, Some(slider), maxPoints, cap).value.0;
      } else {
        assert d == DownsampleData(t, None, maxPoints, cap).value.0;
      }
      assert d.rows[k] == t.rows[k * f];
    }
  }

  /** Neighbouring columns get different colours, and the colours repeat every four columns. */
  lemma CurveColorsCycle(t: Table, f: int, white: bool, i: nat, j: nat)
    requires i < |t.names| && j < |t.names|
    ensures CurveOf(t, f, white, i).color == CurveOf(t, f, white, j).color <==> i % 4 == j % 4
  {
  }

  /** `cache_data`: a full cache first drops its oldest key, whatever key
      comes in; then the key is set (a present key keeps its place). */
  function CachePut(d: Dict<string, Table>, k: string, v: Table): (r: Dict<string, Table>)
    requires Valid(d)
    ensures Valid(r)
    ensures k in r.items && r.items[k] == v
    ensures forall x | x in d.items && x != k && (|d.keys| < MaxCacheSize || x != d.keys[0]) ::
      x in r.items && r.items[x] == d.items[x]
    ensures forall x | x in r.items :: x == k || x in d.items
  {
    if |d.keys| >= MaxCacheSize then Put(Remove(d, d.keys[0]), k, v) else Put(d, k, v)
  }

  /** The cache is a queue in insertion order: a full cache loses its head,
      a new key joins at the back, and setting a present key moves nothing
      (first-in-first-out, not least-recently-used). */
  lemma CachePutOrder(d: Dict<string, Table>, k: string, v: Table)
    requires Valid(d)
    ensures var rest := if |d.keys| >= MaxCacheSize then d.keys[1..] else d.keys;
      CachePut(d, k, v).keys == rest + (if k in rest then [] else [k])
  {
    if |d.keys| >= MaxCacheSize {
      WithoutFirst(d.keys);
    }
  }

  /** The cache never grows beyond `max_cache_size` entries. */
  lemma CachePutBounded(d: Dict<string, Table>, k: string, v: Table)
    requires Valid(d) && |d.keys| <= MaxCacheSize
    ensures |CachePut(d, k, v).keys| <= MaxCacheSize
  {
    CachePutOrder(d, k, v);
  }

  /** Storing a key already present into a full cache still evicts the
      oldest entry, so the cache shrinks. */
  lemma CachePutEvictsEvenOnHit(d: Dict<string, Table>, k: string, v: Table)
    requires Valid(d) && |d.keys| == MaxCacheSize && k in d.keys[1..]
    ensures |CachePut(d, k, v).keys| == MaxCacheSize - 1
    ensures d.keys[0] !in CachePut(d, k, v).items
  {
    CachePutOrder(d, k, v);
    assert d.keys[0] != k by {
      var j :| 0 <= j < |d.keys[1..]| && d.keys[1..][j] == k;
      assert d.keys[j + 1] == k;
    }
  }

  /** One step of `preload_data_async`: a cached path is skipped, a failed
      load is ignored, a loaded frame is cached. */
  function PreloadStep(d: Dict<string, Table>, p: string, load: string -> Result<Table>): (r: Dict<string, Table>)
    requires Valid(d)
    ensures Valid(r)
  {
    if p in d.items then d
    else match load(p)
      case Ok(v) => CachePut(d, p, v)
      case Err(_) => d
  }

  /** The cache after preloading the paths `ps` in order. */
  function Preloaded(d: Dict<string, Table>, ps: seq<string>, load: string -> Result<Table>): (r: Dict<string, Table>)
    requires Valid(d)
    ensures Valid(r)
  {
    if |ps| == 0 then d else PreloadStep(Preloaded(d, ps[..|ps| - 1], load), ps[|ps| - 1], load)
  }

  /** Preloading only ever adds frames loaded for the given paths: every
      cached entry afterwards was cached before, or is a successful load of
      one of the paths. */
  lemma {:induction false} PreloadedEntries(d: Dict<string, Table>, ps: seq<string>, load: string -> Result<Table>)
    requires Valid(d)
    ensures forall p | p in Preloaded(d, ps, load).items ::
      (p in d.items && Preloaded(d, ps, load).items[p] == d.items[p]) ||
      (p in ps && load(p) == Ok(Preloaded(d, ps, load).items[p]))
  {
    if |ps| > 0 {
      var front := ps[..|ps| - 1];
      PreloadedEntries(d, front, load);
      var before := Preloaded(d, front, load);
      var after := Preloaded(d, ps, load);
      forall p | p in after.items
        ensures (p in d.items && after.items[p] == d.items[p]) || (p in ps && load(p) == Ok(after.items[p]))
      {
        assert forall x | x in front :: x in ps;
        if p in before.items && after.items[p] == before.items[p] {
        } else {
          assert p == ps[|ps| - 1];
        }
      }
    }
  }

  /** A key of the plot cache: `clear_cache_for_file` only looks at string keys. */
  datatype CacheKey = Named(name: string) | Other(id: nat)

  /** A cache key `clear_cache_for_file(name)` drops: the name itself, or
      any key starting with the name's stem (`os.path.splitext(name)[0]`). */
  predicate Evictable(key: string, name: string) {
    key == name || StartsWith(key, Stem(name))
  }

  /** The data cache without the entries for `name` and its relatives. */
  function KeepUnrelated(m: map<string, Table>, name: string): (r: map<string, Table>)
    ensures forall k :: k in r <==> k in m && !Evictable(k, name)
    ensures forall k | k in r :: r[k] == m[k]
  {
    map k | k in m && !Evictable(k, name) :: m[k]
  }

  /** The plot cache without the string keys for `name` and its relatives. */
  function KeepUnrelatedPlots(m: map<CacheKey, Table>, name: string): (r: map<CacheKey, Table>)
    ensures forall k :: k in r <==> k in m && !(k.Named? && Evictable(k.name, name))
    ensures forall k | k in r :: r[k] == m[k]
  {
    map k | k in m && !(k.Named? && Evictable(k.name, name)) :: m[k]
  }

  /** The stem rule reaches beyond the file's own entries: clearing
      "a.csv" also clears the entries of "ab.csv" and "a_clean.csv". */
  lemma ClearingReachesOtherFiles()
    ensures Evictable("ab.csv", "a.csv") && Evictable("a_clean.csv", "a.csv")
    ensures !Evictable("b.csv", "a.csv")
  {
    StemOfPlainName();
    StemPrefixEvicted("ab.csv", "a.csv");
    StemPrefixEvicted("a_clean.csv", "a.csv");
    OtherStemKept("b.csv", "a.csv");
  }

  /** When a name's stem is "a", every key starting with "a" goes with it. */
  lemma StemPrefixEvicted(key: string, name: string)
    requires Stem(name) == "a"
    requires |key| >= 1 && key[0] == 'a'
    ensures Evictable(key, name)
  {
    assert key[0..1] == "a";
  }

  /** When a name's stem is "a", a key starting with "b" stays unless it
      is the name itself. */
  lemma OtherStemKept(key: string, name: string)
    requires Stem(name) == "a" && |name| >= 1 && name[0] == 'a'
    requires |key| >= 1 && key[0] == 'b'
    ensures !Evictable(key, name)
  {
    assert key[0..1] != "a" by { assert key[0..1][0] == 'b'; }
    assert key != name by { assert key[0] != name[0]; }
  }

  /** The stem of "a.csv" is "a". */
  lemma StemOfPlainName()
    ensures Stem("a.csv") == "a"
  {
    assert "a" + "." + "csv" == "a.csv" && "a"[0] != '.';
    SplitExtOfJoined("a", "csv");
  }

  /** The first loop of `clear_cache_for_file`: collects the evictable keys
      of the data cache and pops them. */
  method DropEvictable(m: map<string, Table>, name: string) returns (keep: map<string, Table>)
    ensures keep == KeepUnrelated(m, name)
  {
    keep := m;
    var pending := m.Keys;
    while pending != {}
      invariant pending <= m.Keys && keep.Keys <= m.Keys
      invariant forall k | k in m && k !in pending :: k in keep <==> !Evictable(k, name)
      invariant forall k | k in pending :: k in keep
      invariant forall k | k in keep :: keep[k] == m[k]
      decreases |pending|
    {
      assert (forall x :: x !in pending) ==> pending == {};
      var k :| k in pending;
      if k == name || StartsWith(k, Stem(name)) {
        keep := keep - {k};
      }
      pending := pending - {k};
    }
  }

  /** The second loop: the same for the string keys of the plot cache. */
  method DropEvictablePlots(m: map<CacheKey, Table>, name: string) returns (keep: map<CacheKey, Table>)
    ensures keep == KeepUnrelatedPlots(m, name)
  {
    keep := m;
    var pending := m.Keys;
    while pending != {}
      invariant pending <= m.Keys && keep.Keys <= m.Keys
      invariant forall k | k in m && k !in pending :: k in keep <==> !(k.Named? && Evictable(k.name, name))
      invariant forall k | k in pending :: k in keep
      invariant forall k | k in keep :: keep[k] == m[k]
      decreases |pending|
    {
      assert (forall x :: x !in pending) ==> pending == {};
      var k :| k in pending;
      if k.Named? && (k.name == name || StartsWith(k.name, Stem(name))) {
        keep := keep - {k};
      }
      pending := pending - {k};
    }
  }

  /** What `get_performance_info` reports. */
  datatype PerformanceInfo = PerformanceInfo(cacheSize: nat, maxCacheSize: nat, downsampleFactor: int,
                                             maxPoints: int, currentDownsample: int, manualMode: bool)

  class PlotRenderer {
    /** `MAX_POINTS_FOR_SMOOTH_RENDERING` and `DOWNSAMPLE_FACTOR` of this instance. */
    var maxPoints: int
    var downsampleFactor: int
    var currentFactor: int
    var manual: bool
    var disabled: bool
    /** `lazy_load_cache`: frames by path, oldest first. */
    var lazyCache: Dict<string, Table>
    /** `current_data_cache` and `plot_cache`. */
    var dataCache: map<string, Table>
    var plotCache: map<CacheKey, Table>

    /** The lazy cache is a well-formed dictionary within its size bound. */
    ghost predicate Valid()
      reads this
    {
      PyDict.Valid(lazyCache) && |lazyCache.keys| <= MaxCacheSize
    }

    constructor ()
      ensures Valid()
      ensures maxPoints == DefaultMaxPoints && downsampleFactor == DefaultDownsampleFactor && currentFactor == 1
      ensures !manual && !disabled && lazyCache == PyDict.Empty() && dataCache == map[] && plotCache == map[]
    {
      maxPoints := DefaultMaxPoints;
      downsampleFactor := DefaultDownsampleFactor;
      currentFactor := 1;
      manual := false;
      disabled := false;
      lazyCache := PyDict.Empty();
      dataCache := map[];
      plotCache := map[];
    }

    /** `plot_dataframe_with_theme`: picks the frame and factor by mode,
        records the factor, and draws one curve per column. When thinning
        raises, the recorded factor is left as it was and nothing is drawn. */
    method PlotDataFrame(t: Table, slider: int, white: bool) returns (r: Result<seq<Curve>>)
      modifies this
      ensures var m := Rendering(t, disabled, manual, slider, maxPoints, downsampleFactor);
        (m.Err? ==> r == Err(m.error) && currentFactor == old(currentFactor)) &&
        (m.Ok? ==>
           currentFactor == m.value.1 && r.Ok? && |r.value| == |m.value.0.names| &&
           forall i | 0 <= i < |r.value| :: r.value[i] == CurveOf(m.value.0, m.value.1, white, i))
      ensures maxPoints == old(maxPoints) && downsampleFactor == old(downsampleFactor)
      ensures manual == old(manual) && disabled == old(disabled)
      ensures lazyCache == old(lazyCache) && dataCache == old(dataCache) && plotCache == old(plotCache)
    {
      var m := Rendering(t, disabled, manual, slider, maxPoints, downsampleFactor);
      if m.Err? {
        return Err(m.error);
      }
      var (d, f) := m.value;
      currentFactor := f;
      var curves: seq<Curve> := [];
      for i := 0 to |d.names|
        invariant |curves| == i
        invariant forall j | 0 <= j < i :: curves[j] == CurveOf(d, f, white, j)
      {
        curves := curves + [CurveOf(d, currentFactor, white, i)];
      }
      r := Ok(curves);
    }

    /** `get_cached_data` */
    function GetCachedData(path: string): (r: Option<Table>)
      reads this
      ensures r.Some? <==> path in lazyCache.items
      ensures r.Some? ==> r.value == lazyCache.items[path]
    {
      if path in lazyCache.items then Some(lazyCache.items[path]) else None
    }

    /** `cache_data` */
    method CacheData(path: string, data: Table)
      requires Valid()
      modifies this
      ensures Valid() && lazyCache == CachePut(old(lazyCache), path, data)
      ensures maxPoints == old(maxPoints) && downsampleFactor == old(downsampleFactor) && currentFactor == old(currentFactor)
      ensures manual == old(manual) && disabled == old(disabled)
      ensures dataCache == old(dataCache) && plotCache == old(plotCache)
    {
      CachePutBounded(lazyCache, path, data);
      lazyCache := CachePut(lazyCache, path, data);
    }

    /** `load_data_efficiently`: a cached frame is returned without loading;
        otherwise the frame is loaded and cached. A failed load propagates
        and caches nothing. */
    method LoadDataEfficiently(path: string, load: string -> Result<Table>) returns (r: Result<Table>)
      requires Valid()
      modifies this
      ensures Valid()
      ensures path in old(lazyCache.items) ==> r == Ok(old(lazyCache.items[path])) && lazyCache == old(lazyCache)
      ensures path !in old(lazyCache.items) ==>
        r == load(path) && lazyCache == (if r.Ok? then CachePut(old(lazyCache), path, r.value) else old(lazyCache))
      ensures maxPoints == old(maxPoints) && downsampleFactor == old(downsampleFactor) && currentFactor == old(currentFactor)
      ensures manual == old(manual) && disabled == old(disabled)
      ensures dataCache == old(dataCache) && plotCache == old(plotCache)
    {
      var cached := GetCachedData(path);
      if cached.Some? {
        return Ok(cached.value);
      }
      r := load(path);
      if r.Ok? {
        CacheData(path, r.value);
      }
    }

    /** `preload_data_async`: the first three paths, in order. */
    method PreloadDataAsync(paths: seq<string>, load: string -> Result<Table>)
      requires Valid()
      modifies this
      ensures Valid() && lazyCache == Preloaded(old(lazyCache), paths[..Min(3, |paths|)], load)
      ensures maxPoints == old(maxPoints) && downsampleFactor == old(downsampleFactor) && currentFactor == old(currentFactor)
      ensures manual == old(manual) && disabled == old(disabled)
      ensures dataCache == old(dataCache) && plotCache == old(plotCache)
    {
      var ps := paths[..Min(3, |paths|)];
      for i := 0 to |ps|
        invariant Valid() && lazyCache == Preloaded(old(lazyCache), ps[..i], load)
        invariant maxPoints == old(maxPoints) && downsampleFactor == old(downsampleFactor) && currentFactor == old(currentFactor)
        invariant manual == old(manual) && disabled == old(disabled)
        invariant dataCache == old(dataCache) && plotCache == old(plotCache)
      {
        assert ps[..i + 1][..i] == ps[..i];
        var p := ps[i];
        if p !in lazyCache.items {
          var loaded := load(p);
          if loaded.Ok? {
            CacheData(p, loaded.value);
          }
        }
      }
      assert ps[..|ps|] == ps;
    }

    /** `update_performance_settings`: each given value replaces its setting. */
    method UpdatePerformanceSettings(newMaxPoints: Option<int>, newFactor: Option<int>)
      modifies this
      ensures maxPoints == (if newMaxPoints.Some? then newMaxPoints.value else old(maxPoints))
      ensures downsampleFactor == (if newFactor.Some? then newFactor.value else old(downsampleFactor))
      ensures currentFactor == old(currentFactor) && manual == old(manual) && disabled == old(disabled)
      ensures lazyCache == old(lazyCache) && dataCache == old(dataCache) && plotCache == old(plotCache)
    {
      if newMaxPoints.Some? {
        maxPoints := newMaxPoints.value;
      }
      if newFactor.Some? {
        downsampleFactor := newFactor.value;
      }
    }

    /** `clear_cache`: the plot and lazy caches are emptied; the data cache is kept. */
    method ClearCache()
      modifies this
      ensures Valid() && lazyCache == PyDict.Empty() && plotCache == map[] && dataCache == old(dataCache)
      ensures maxPoints == old(maxPoints) && downsampleFactor == old(downsampleFactor) && currentFactor == old(currentFactor)
      ensures manual == old(manual) && disabled == old(disabled)
    {
      lazyCache := PyDict.Empty();
      plotCache := map[];
    }

    /** `clear_cache_for_file`: `registeredPath` is the registry's path for
        the name, or None when the name is not registered. The lazy entry at
        that path goes, and so does every data and plot entry whose key is
        evictable for the name. */
    method ClearCacheForFile(name: string, registeredPath: Option<string>)
      requires Valid()
      modifies this
      ensures Valid()
      ensures lazyCache == (if registeredPath.Some? && registeredPath.value in old(lazyCache.items)
                            then Remove(old(lazyCache), registeredPath.value) else old(lazyCache))
      ensures dataCache == KeepUnrelated(old(dataCache), name)
      ensures plotCache == KeepUnrelatedPlots(old(plotCache), name)
      ensures maxPoints == old(maxPoints) && downsampleFactor == old(downsampleFactor) && currentFactor == old(currentFactor)
      ensures manual == old(manual) && disabled == old(disabled)
    {
      if registeredPath.Some? && registeredPath.value in lazyCache.items {
        lazyCache := Remove(lazyCache, registeredPath.value);
        assert |lazyCache.keys| <= |old(lazyCache).keys|;
      }
      dataCache := DropEvictable(dataCache, name);
      plotCache := DropEvictablePlots(plotCache, name);
    }

    /** `get_performance_info` */
    method GetPerformanceInfo() returns (info: PerformanceInfo)
      ensures info == PerformanceInfo(|lazyCache.keys|, MaxCacheSize, downsampleFactor, maxPoints, currentFactor, manual)
    {
      info := PerformanceInfo(|lazyCache.keys|, MaxCacheSize, downsampleFactor, maxPoints, currentFactor, manual);
    }

    /** `set_manual_downsample_mode` */
    method SetManualDownsampleMode(enabled: bool)
      modifies this
      ensures manual == enabled && disabled == old(disabled)
      ensures maxPoints == old(maxPoints) && downsampleFactor == old(downsampleFactor) && currentFactor == old(currentFactor)
      ensures lazyCache == old(lazyCache) && dataCache == old(dataCache) && plotCache == old(plotCache)
    {
      manual := enabled;
    }

    /** `set_disable_downsample` */
    method SetDisableDownsample(off: bool)
      modifies this
      ensures disabled == off && manual == old(manual)
      ensures maxPoints == old(maxPoints) && downsampleFactor == old(downsampleFactor) && currentFactor == old(currentFactor)
      ensures lazyCache == old(lazyCache) && dataCache == old(dataCache) && plotCache == old(plotCache)
    {
      disabled := off;
    }
  }
}
