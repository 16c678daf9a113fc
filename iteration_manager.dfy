/** app/ui/managers/iteration_manager.py: `IterationManager` keeps, per file
    name, the iterations reported while the file was processed, remembers
    which file the iterations tab shows, and which files the user cleared by
    hand so that their saved iterations are not loaded back from disk. The
    registry's name-to-path dictionary and the disk are parameters. */
module IterationManagement {
  import opened PyCore
  import opened PyStr
  import opened PyDict
  import opened Naming
  import DataProcessing
  import opened Iterations

  /** The per-file store of iterations: an insertion-ordered dictionary. */
  type Store = Dict<string, FileIterations>

  /** A stored key a lookup for `f` accepts: the name itself, or one with
      the same base name. */
  predicate Related(key: string, f: string) {
    key == f || BaseName(key) == BaseName(f)
  }

  /** A stored key that clearing `f` removes: related to `f`, or with `f`
      itself as its base name. */
  predicate Matches(key: string, f: string) {
    Related(key, f) || BaseName(key) == f
  }

  /** The first key, in insertion order, a lookup for `f` accepts. */
  function FindKey(keys: seq<string>, f: string): (r: Option<string>)
    ensures r.Some? ==> r.value in keys && Related(r.value, f)
    ensures r.None? <==> forall k :: k in keys ==> !Related(k, f)
  {
    if |keys| == 0 then None
    else if Related(keys[0], f) then Some(keys[0])
    else
      assert forall k :: k in keys ==> k == keys[0] || k in keys[1..] by {
        assert keys == [keys[0]] + keys[1..];
      }
      FindKey(keys[1..], f)
  }

  /** A scan that met no accepted key before position `i` and meets one at
      `i` has found the first. */
  lemma {:induction false} FindKeyAt(keys: seq<string>, f: string, i: nat)
    requires i < |keys| && Related(keys[i], f)
    requires forall j :: 0 <= j < i ==> !Related(keys[j], f)
    ensures FindKey(keys, f) == Some(keys[i])
  {
    if i > 0 {
      var t := keys[1..];
      forall j | 0 <= j < i - 1 ensures !Related(t[j], f) { assert t[j] == keys[j + 1]; }
      assert !Related(keys[0], f);
      FindKeyAt(t, f, i - 1);
    }
  }

  /** The keys clearing `f` removes, in insertion order. */
  function Matching(keys: seq<string>, f: string): (r: seq<string>)
    ensures forall k :: k in r <==> k in keys && Matches(k, f)
  {
    if |keys| == 0 then []
    else
      var front := keys[..|keys| - 1];
      var last := keys[|keys| - 1];
      assert forall k :: k in keys <==> k in front || k == last by { assert keys == front + [last]; }
      Matching(front, f) + (if Matches(last, f) then [last] else [])
  }

  /** The names a list holds. */
  function Names(ks: seq<string>): (r: set<string>)
    ensures forall k :: k in r <==> k in ks
  {
    set k | k in ks
  }

  /** A well-formed dictionary that holds no file without iterations. */
  ghost predicate StoreOk(d: Store) {
    PyDict.Valid(d) && forall k :: k in d.items ==> |d.items[k]| > 0
  }

  /** The store after popping each of `ks` in turn. */
  function RemoveAll(d: Store, ks: seq<string>): (r: Store)
    requires Valid(d)
    ensures Valid(r)
    ensures forall k :: k in r.items <==> k in d.items && k !in ks
    ensures forall k :: k in r.items ==> r.items[k] == d.items[k]
  {
    if |ks| == 0 then d
    else
      var front := ks[..|ks| - 1];
      assert forall k :: k in ks <==> k in front || k == ks[|ks| - 1] by { assert ks == front + [ks[|ks| - 1]]; }
      Remove(RemoveAll(d, front), ks[|ks| - 1])
  }

  /** Popping keys keeps the store well formed. */
  lemma RemoveAllOk(d: Store, ks: seq<string>)
    requires StoreOk(d)
    ensures StoreOk(RemoveAll(d, ks))
  {
    var r := RemoveAll(d, ks);
    forall k | k in r.items ensures |r.items[k]| > 0 {
      assert r.items[k] == d.items[k];
    }
  }

  /** A name whose saved iterations must not come back from disk. */
  predicate Blocked(name: string, cleared: set<string>) {
    name in cleared || BaseName(name) in cleared
  }

  /** `_check_iteration_file_exists`: a name not cleared by hand, registered
      with a non-empty path, whose iterations file present. An unregistered
      name counts as absent. */
  predicate OnDisk(name: string, cleared: set<string>, registry: map<string, string>, present: string -> bool) {
    !Blocked(name, cleared) && name in registry && |registry[name]| > 0 && present(registry[name])
  }

  /** `has_iteration_data_for_file`: iterations in memory under an accepted
      key, or an iterations file on disk. */
  predicate HasData(d: Store, cleared: set<string>, f: string, registry: map<string, string>, present: string -> bool) {
    FindKey(d.keys, f).Some? || OnDisk(f, cleared, registry, present)
  }

  /** `_load_iteration_results_from_disk`: nothing for a name cleared by
      hand; KeyError for an unregistered one (the registry lookup is not
      guarded); the stored iterations when the file holds some. */
  function LoadOutcome(name: string, cleared: set<string>, registry: map<string, string>,
                       disk: string -> Option<FileIterations>): Result<Option<FileIterations>>
  {
    if Blocked(name, cleared) then Ok(None)
    else if name !in registry then Err(KeyError)
    else
      var path := registry[name];
      if |path| > 0 && disk(path).Some? && |disk(path).value| > 0 then Ok(Some(disk(path).value)) else Ok(None)
  }

  /** A load yields iterations only for a name not cleared by hand whose
      iterations file present, and never brings back a cleared file. */
  lemma LoadOutcomeAgrees(name: string, cleared: set<string>, registry: map<string, string>,
                          disk: string -> Option<FileIterations>, present: string -> bool)
    requires forall p :: disk(p).Some? ==> present(p)
    ensures LoadOutcome(name, cleared, registry, disk).Ok? && LoadOutcome(name, cleared, registry, disk).value.Some? ==>
      OnDisk(name, cleared, registry, present)
    ensures Blocked(name, cleared) ==> LoadOutcome(name, cleared, registry, disk) == Ok(None)
  {
  }

  /** `show_iterations_for_file`, as written: the key shown and its
      iterations, or None when nothing is found. After a miss in memory it
      loads the name, then the bare base name; the base name is hardly ever
      registered, so the second load raises KeyError. */
  function ShowOutcome(d: Store, cleared: set<string>, f: string, registry: map<string, string>,
                       disk: string -> Option<FileIterations>): Result<Option<(string, FileIterations)>>
    requires Valid(d)
  {
    var found := FindKey(d.keys, f);
    if found.Some? && |d.items[found.value]| > 0 then Ok(Some((found.value, d.items[found.value])))
    else
      match LoadOutcome(f, cleared, registry, disk)
      case Err(e) => Err(e)
      case Ok(Some(data)) => Ok(Some((f, data)))
      case Ok(None) =>
        match LoadOutcome(BaseName(f), cleared, registry, disk)
        case Err(e) => Err(e)
        case Ok(Some(data)) => Ok(Some((BaseName(f), data)))
        case Ok(None) => Ok(None)
  }

  /** The input that shows it: an empty store, nothing cleared, a registered
      `a.csv` without an iterations file. Showing `a.csv` raises KeyError
      from the lookup of the unregistered base name `a`. */
  lemma ShowRaisesForUnregisteredBase()
    ensures ShowOutcome(Empty(), {}, "a.csv", map["a.csv" := "data/a.csv"], _ => None) == Err(KeyError)
  {
    assert !Contains("a", ".") by {
      assert FindFrom("a", ".", 1).None?;
      assert "a"[0..1] == ['a'] != ".";
    }
    DotKeyOfNamed("a", "csv");
    assert !Contains("a.csv", CleanMarker);
    assert BaseName("a.csv") == "a";
  }

  /** The evidently intended lookup: an unregistered name is treated as
      having no saved iterations, as `_check_iteration_file_exists` does. */
  function GuardedLoad(name: string, cleared: set<string>, registry: map<string, string>,
                       disk: string -> Option<FileIterations>): Option<FileIterations>
  {
    match LoadOutcome(name, cleared, registry, disk)
    case Ok(r) => r
    case Err(_) => None
  }

  function GuardedShowOutcome(d: Store, cleared: set<string>, f: string, registry: map<string, string>,
                              disk: string -> Option<FileIterations>): Option<(string, FileIterations)>
    requires Valid(d)
  {
    var found := FindKey(d.keys, f);
    if found.Some? && |d.items[found.value]| > 0 then Some((found.value, d.items[found.value]))
    else if GuardedLoad(f, cleared, registry, disk).Some? then Some((f, GuardedLoad(f, cleared, registry, disk).value))
    else if GuardedLoad(BaseName(f), cleared, registry, disk).Some? then
      Some((BaseName(f), GuardedLoad(BaseName(f), cleared, registry, disk).value))
    else None
  }

  /** The guarded lookup shows exactly what `has_iteration_data_for_file`
      promises: iterations in memory are found, a file whose iterations are
      on disk is shown, and a file cleared by hand comes back only from
      memory. Where the written lookup answers, the two agree. */
  lemma GuardedShowAgrees(d: Store, cleared: set<string>, f: string, registry: map<string, string>,
                          disk: string -> Option<FileIterations>, present: string -> bool)
    requires Valid(d) && forall k :: k in d.items ==> |d.items[k]| > 0
    requires forall p :: disk(p).Some? ==> present(p)
    ensures FindKey(d.keys, f).Some? ==> GuardedShowOutcome(d, cleared, f, registry, disk) == Some((FindKey(d.keys, f).value, d.items[FindKey(d.keys, f).value]))
    ensures GuardedShowOutcome(d, cleared, f, registry, disk).Some? && FindKey(d.keys, f).None? ==>
      OnDisk(f, cleared, registry, present) || OnDisk(BaseName(f), cleared, registry, present)
    ensures ShowOutcome(d, cleared, f, registry, disk).Ok? ==>
      ShowOutcome(d, cleared, f, registry, disk).value == GuardedShowOutcome(d, cleared, f, registry, disk)
  {
    LoadOutcomeAgrees(f, cleared, registry, disk, present);
    LoadOutcomeAgrees(BaseName(f), cleared, registry, disk, present);
  }

  /** The iterations stored for `f`, or none yet. */
  function Inner(d: Store, f: string): FileIterations {
    if f in d.items then d.items[f] else map[]
  }

  /** The shown file after a named clear: dropped when it was removed or is
      the cleared name, then the oldest remaining key when there is one. */
  function AfterClear(c: Option<string>, removed: seq<string>, f: string, d: Store): Option<string> {
    var c1 := if c.Some? && (c.value in removed || c.value == f) then None else c;
    if |d.keys| > 0 && c1.None? then Some(d.keys[0]) else c1
  }

  /** One more key popped. */
  lemma RemoveAllStep(d: Store, ks: seq<string>, j: nat)
    requires Valid(d) && j < |ks|
    ensures RemoveAll(d, ks[..j + 1]) == Remove(RemoveAll(d, ks[..j]), ks[j])
    ensures Names(ks[..j + 1]) == Names(ks[..j]) + {ks[j]}
  {
    assert ks[..j + 1][..j] == ks[..j];
  }

  lemma InPrefixStep(ks: seq<string>, j: nat, x: string)
    requires j < |ks|
    ensures x in ks[..j + 1] <==> x in ks[..j] || x == ks[j]
  {
    assert ks[..j + 1] == ks[..j] + [ks[j]];
  }

  /** A named clear: every key the name matches is removed and, with the
      name itself, counted as cleared by hand; the shown file follows
      `AfterClear`; the tabs go when nothing is left. */
  function Cleared(d: Store, cl: set<string>, cur: Option<string>, f: string): (Store, set<string>, Option<string>, bool)
    requires PyDict.Valid(d)
  {
    var removed := Matching(d.keys, f);
    var d' := RemoveAll(d, removed);
    (d', cl + Names(removed) + {f}, AfterClear(cur, removed, f, d'), |d'.keys| == 0)
  }

  /** Dropping the shown file when the loop removed it, then when it is the
      cleared name, is dropping it when either holds. */
  lemma DropShown(c0: Option<string>, c: Option<string>, removed: seq<string>, f: string, c1: Option<string>)
    requires c == (if c0.Some? && c0.value in removed then None else c0)
    requires c1 == (if c == Some(f) then None else c)
    ensures c1 == (if c0.Some? && (c0.value in removed || c0.value == f) then None else c0)
  {
  }

  class IterationManager {
    var results: Store
    /** The file the iterations tab shows. */
    var current: Option<string>
    /** The names cleared by hand since they were last processed. */
    var cleared: set<string>

    /** The store is a well-formed dictionary and holds no file without iterations. */
    ghost predicate Valid()
      reads this
    {
      StoreOk(results)
    }

    constructor ()
      ensures Valid() && results == Empty() && current.None? && cleared == {}
    {
      results := Empty();
      current := None;
      cleared := {};
    }

    /** `store_iteration_data`: the iteration is stored under its number in
        the file's entry, which is created, last in order, when missing. */
    method StoreIterationData(f: string, n: int, data: Iteration)
      requires Valid()
      modifies this
      ensures Valid()
      ensures results == Put(old(results), f, Inner(old(results), f)[n := data])
      ensures current == old(current) && cleared == old(cleared)
    {
      results := Put(results, f, Inner(results, f)[n := data]);
    }

    /** `finalize_iteration_results`: for a file with iterations, it is no
        longer counted as cleared by hand, its iterations are saved next to
        its registered path (KeyError when it is unregistered), and it
        becomes the shown file. Returns the path saved to, if any. */
    method FinalizeIterationResults(f: string, registry: map<string, string>) returns (r: Result<Option<string>>)
      requires Valid()
      modifies this
      ensures Valid() && results == old(results)
      ensures f !in old(results).items ==> r == Ok(None) && current == old(current) && cleared == old(cleared)
      ensures f in old(results).items ==> cleared == old(cleared) - {f}
      ensures f in old(results).items && f !in registry ==> r == Err(KeyError) && current == old(current)
      ensures f in old(results).items && f in registry ==>
        current == Some(f) && r == Ok(if |registry[f]| > 0 then Some(registry[f]) else None)
    {
      if f !in results.items {
        return Ok(None);
      }
      cleared := cleared - {f};
      if f !in registry {
        return Err(KeyError);
      }
      var path := registry[f];
      current := Some(f);
      r := Ok(if |path| > 0 then Some(path) else None);
    }

    /** The loop of `clear_iteration_data` that collects the keys a name matches. */
    static method KeysToRemove(keys: seq<string>, f: string) returns (toRemove: seq<string>)
      ensures toRemove == Matching(keys, f)
    {
      toRemove := [];
      for i := 0 to |keys|
        invariant toRemove == Matching(keys[..i], f)
      {
        assert keys[..i + 1][..i] == keys[..i];
        if keys[i] == f || BaseName(keys[i]) == BaseName(f) || BaseName(keys[i]) == f {
          toRemove := toRemove + [keys[i]];
        }
      }
      assert keys[..|keys|] == keys;
    }

    /** The loop of `clear_iteration_data` that pops each collected key,
        counts it as cleared by hand, and drops it as the shown file. */
    static method RemoveKeys(d: Store, cl: set<string>, cur: Option<string>, toRemove: seq<string>)
      returns (d': Store, cl': set<string>, cur': Option<string>)
      requires PyDict.Valid(d)
      ensures d' == RemoveAll(d, toRemove)
      ensures cl' == cl + Names(toRemove)
      ensures cur' == (if cur.Some? && cur.value in toRemove then None else cur)
    {
      d', cl', cur' := d, cl, cur;
      for j := 0 to |toRemove|
        invariant d' == RemoveAll(d, toRemove[..j])
        invariant cl' == cl + Names(toRemove[..j])
        invariant cur' == (if cur.Some? && cur.value in toRemove[..j] then None else cur)
      {
        RemoveAllStep(d, toRemove, j);
        if cur.Some? {
          InPrefixStep(toRemove, j, cur.value);
        }
        d' := Remove(d', toRemove[j]);
        cl' := cl' + {toRemove[j]};
        if cur' == Some(toRemove[j]) {
          cur' := None;
        }
      }
      assert toRemove[..|toRemove|] == toRemove;
    }

    /** `clear_iteration_data`: with no name everything is dropped; with a
        name, every key it matches is removed and, with the name itself,
        counted as cleared by hand, and the shown file moves to the oldest
        remaining key when it was removed. Returns whether the iterations
        and convergence tabs are dropped. */
    method ClearIterationData(file: Option<string>) returns (dropTabs: bool)
      requires Valid()
      modifies this
      ensures Valid()
      ensures file.None? ==> results == Empty() && current.None? && cleared == {} && dropTabs
      ensures file.Some? ==> (results, cleared, current, dropTabs) == Cleared(old(results), old(cleared), old(current), file.value)
    {
      if file.None? {
        results := Empty();
        current := None;
        cleared := {};
        return true;
      }
      var d, cl, c;
      d, cl, c, dropTabs := ClearNamed(results, cleared, current, file.value);
      RemoveAllOk(results, Matching(results.keys, file.value));
      results, cleared, current := d, cl, c;
    }

    /** The named branch of `clear_iteration_data`, on the store, the
        cleared names and the shown file it starts from. */
    static method ClearNamed(d: Store, cl: set<string>, cur: Option<string>, f: string)
      returns (d': Store, cl': set<string>, cur': Option<string>, dropTabs: bool)
      requires PyDict.Valid(d)
      ensures (d', cl', cur', dropTabs) == Cleared(d, cl, cur, f)
    {
      var toRemove := KeysToRemove(d.keys, f);
      var c;
      d', cl', c := RemoveKeys(d, cl, cur, toRemove);
      var c1 := if c == Some(f) then None else c;
      DropShown(cur, c, toRemove, f, c1);
      cl' := cl' + {f};
      dropTabs := |d'.keys| == 0;
      cur' := if !dropTabs && c1.None? then Some(d'.keys[0]) else c1;
      assert cur' == AfterClear(cur, toRemove, f, d');
    }

    /** `has_iteration_data_for_file`. */
    method HasIterationDataForFile(f: string, registry: map<string, string>, present: string -> bool) returns (r: bool)
      requires Valid()
      ensures r == HasData(results, cleared, f, registry, present)
    {
      var keys := results.keys;
      for i := 0 to |keys|
        invariant forall j :: 0 <= j < i ==> !Related(keys[j], f)
      {
        if keys[i] == f || BaseName(keys[i]) == BaseName(f) {
          FindKeyAt(keys, f, i);
          return true;
        }
      }
      assert forall k :: k in keys ==> !Related(k, f);
      if f in cleared || BaseName(f) in cleared {
        return false;
      }
      if f !in registry {
        return false;
      }
      var path := registry[f];
      r := |path| > 0 && present(path);
    }

    /** `_load_iteration_results_from_disk`: stores what the disk holds for
        the name, under the name. */
    method LoadFromDisk(name: string, registry: map<string, string>, disk: string -> Option<FileIterations>)
      returns (r: Result<bool>)
      requires Valid()
      modifies this
      ensures Valid() && current == old(current) && cleared == old(cleared)
      ensures LoadOutcome(name, cleared, registry, disk).Err? ==> r == Err(KeyError) && results == old(results)
      ensures LoadOutcome(name, cleared, registry, disk) == Ok(None) ==> r == Ok(false) && results == old(results)
      ensures LoadOutcome(name, cleared, registry, disk).Ok? && LoadOutcome(name, cleared, registry, disk).value.Some? ==>
        r == Ok(true) && results == Put(old(results), name, LoadOutcome(name, cleared, registry, disk).value.value)
    {
      if name in cleared || BaseName(name) in cleared {
        return Ok(false);
      }
      if name !in registry {
        return Err(KeyError);
      }
      var path := registry[name];
      if |path| > 0 {
        var loaded := disk(path);
        if loaded.Some? && |loaded.value| > 0 {
          results := Put(results, name, loaded.value);
          return Ok(true);
        }
      }
      return Ok(false);
    }

    /** The scan over the stored keys that `show_iterations_for_file` starts with. */
    method FindInMemory(f: string) returns (found: Option<string>)
      ensures found == FindKey(results.keys, f)
    {
      var keys := results.keys;
      found := None;
      var i := 0;
      while i < |keys| && found.None?
        invariant 0 <= i <= |keys|
        invariant found.None? ==> forall j :: 0 <= j < i ==> !Related(keys[j], f)
        invariant found.Some? ==> found == FindKey(keys, f)
        decreases |keys| - i, if found.None? then 1 else 0
      {
        if keys[i] == f || BaseName(keys[i]) == BaseName(f) {
          FindKeyAt(keys, f, i);
          found := Some(keys[i]);
        } else {
          i := i + 1;
        }
      }
    }

    /** `show_iterations_for_file`, as written: the first accepted key in
        memory, else the iterations loaded for the name or for its base
        name; what is found becomes the shown file. */
    method ShowIterationsForFile(f: string, registry: map<string, string>, disk: string -> Option<FileIterations>)
      returns (r: Result<bool>)
      requires Valid()
      modifies this
      ensures Valid() && cleared == old(cleared)
      ensures var o := ShowOutcome(old(results), old(cleared), f, registry, disk);
        (o.Err? ==> r == Err(o.error) && current == old(current)) &&
        (o == Ok(None) ==> r == Ok(false) && current == old(current)) &&
        (o.Ok? && o.value.Some? ==>
          r == Ok(true) && current == Some(o.value.value.0) &&
          o.value.value.0 in results.items && results.items[o.value.value.0] == o.value.value.1)
      ensures var o := ShowOutcome(old(results), old(cleared), f, registry, disk);
        (o.Err? || o == Ok(None) ==> results == old(results)) &&
        (FindKey(old(results).keys, f).Some? ==> results == old(results)) &&
        (FindKey(old(results).keys, f).None? && o.Ok? && o.value.Some? ==>
          results == Put(old(results), o.value.value.0, o.value.value.1))
    {
      var found := FindInMemory(f);
      if found.Some? {
        assert found.value in results.items;
        current := found;
        return Ok(true);
      }
      var first := LoadFromDisk(f, registry, disk);
      if first.Err? {
        return first;
      }
      if first.value {
        current := Some(f);
        return Ok(true);
      }
      var second := LoadFromDisk(BaseName(f), registry, disk);
      if second.Err? {
        return second;
      }
      if second.value {
        current := Some(BaseName(f));
        return Ok(true);
      }
      return Ok(false);
    }
  }

  /** Clearing a file by hand hides it from `has_iteration_data_for_file`
      whatever the disk holds, until it is processed again. */
  lemma ClearedFileHasNoData(d: Store, cleared: set<string>, f: string, registry: map<string, string>, present: string -> bool)
    requires Valid(d)
    ensures !HasData(RemoveAll(d, Matching(d.keys, f)), cleared + Names(Matching(d.keys, f)) + {f}, f, registry, present)
  {
    var after := RemoveAll(d, Matching(d.keys, f));
    forall k | k in after.keys ensures !Related(k, f) {
      assert k in after.items;
    }
  }

  /** Clearing any name whose base name is `x` removes the results of every
      run with several algorithms on `x`. */
  lemma ClearReachesResults(x: string, k: nat, f: string)
    requires !Contains(x, CleanMarker) && BaseName(f) == x
    ensures Matches(DataProcessing.DualCleanName(x, k), f)
  {
    DataProcessing.DualCleanNames(x, k, k);
  }

  /** Processing a file again after clearing it makes its iterations
      reachable again: a cleared file whose iterations are stored anew and
      finalised is reported to have iterations. */
  method ClearStoreFinalize(f: string, n: int, data: Iteration, registry: map<string, string>, present: string -> bool)
    returns (afterClear: bool, afterStore: bool, shown: Option<string>)
    requires f in registry
    ensures !afterClear && afterStore && shown == Some(f)
  {
    var m := new IterationManager();
    m.StoreIterationData(f, n, data);
    var _ := m.ClearIterationData(Some(f));
    ClearedFileHasNoData(Put(Empty(), f, map[n := data]), {}, f, registry, present);
    afterClear := m.HasIterationDataForFile(f, registry, present);
    m.StoreIterationData(f, n, data);
    var _ := m.FinalizeIterationResults(f, registry);
    afterStore := m.HasIterationDataForFile(f, registry, present);
    shown := m.current;
  }
}
