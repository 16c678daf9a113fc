/** app/core/data_registry.py: the registry of loaded files, two independent
    dictionaries from a display name to the file's path and to its frame. */
module Registry {
  import opened PyCore
  import opened Frames

  class DataRegistry {
    var paths: map<string, string>
    var frames: map<string, DataFrame<real>>

    /** A new registry knows no names. */
    constructor ()
      ensures paths == map[] && frames == map[]
    {
      paths := map[];
      frames := map[];
    }

    /** `set_file`: registers or replaces the path of a name; frames are untouched. */
    method SetFile(name: string, path: string)
      modifies this
      ensures paths == old(paths)[name := path]
      ensures frames == old(frames)
    {
      paths := paths[name := path];
    }

    /** `get_path`: the registered path, or KeyError for an unknown name. */
    method GetPath(name: string) returns (r: Result<string>)
      ensures r.Ok? <==> name in paths
      ensures r.Ok? ==> r.value == paths[name]
      ensures r.Err? ==> r.error == KeyError
    {
      if name in paths {
        return Ok(paths[name]);
      }
      return Err(KeyError);
    }

    /** `has_file` */
    predicate HasFile(name: string)
      reads this
    {
      name in paths
    }

    /** `remove`: forgets the name in both dictionaries; an unknown name is no error. */
    method Remove(name: string)
      modifies this
      ensures paths == old(paths) - {name}
      ensures frames == old(frames) - {name}
      ensures name !in old(paths) && name !in old(frames) ==> paths == old(paths) && frames == old(frames)
    {
      paths := paths - {name};
      frames := frames - {name};
    }

    /** `set_df`: registers or replaces the frame of a name; paths are untouched. */
    method SetDf(name: string, df: DataFrame<real>)
      modifies this
      ensures frames == old(frames)[name := df]
      ensures paths == old(paths)
    {
      frames := frames[name := df];
    }

    /** `get_df`: the registered frame (the same object), or KeyError. */
    method GetDf(name: string) returns (r: Result<DataFrame<real>>)
      ensures r.Ok? <==> name in frames
      ensures r.Ok? ==> r.value == frames[name]
      ensures r.Err? ==> r.error == KeyError
    {
      if name in frames {
        return Ok(frames[name]);
      }
      return Err(KeyError);
    }

    /** `has_df` */
    predicate HasDf(name: string)
      reads this
    {
      name in frames
    }
  }

  /** A short session: after `set_file(n, p)` the name is known with that
      path, a second `set_file` replaces it, no frame appears, and `remove`
      forgets the name while another name keeps its entry. */
  method RegistrySession(n: string, m: string, p: string, q: string) returns (before: Result<string>, after: Result<string>, other: Result<string>)
    requires n != m
    ensures before == Ok(q)
    ensures after == Err(KeyError)
    ensures other == Ok(p)
  {
    var reg := new DataRegistry();
    reg.SetFile(n, p);
    reg.SetFile(m, p);
    reg.SetFile(n, q);
    assert !reg.HasDf(n);
    before := reg.GetPath(n);
    reg.Remove(n);
    after := reg.GetPath(n);
    other := reg.GetPath(m);
  }
}
