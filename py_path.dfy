/** POSIX `os.path.basename`, `os.path.splitext` and `os.path.join`. */
module PyPath {
  import opened PyCore
  import opened PyStr

  /** Index of the last `c` in `s`, if any (`str.rfind`). */
  function LastIndexOf(s: string, c: char): (r: Option<nat>)
    ensures r.Some? ==> r.value < |s| && s[r.value] == c
    ensures r.Some? ==> forall j :: r.value < j < |s| ==> s[j] != c
    ensures r.None? ==> forall j :: 0 <= j < |s| ==> s[j] != c
  {
    if |s| == 0 then None
    else if s[|s| - 1] == c then Some(|s| - 1)
    else LastIndexOf(s[..|s| - 1], c)
  }

  /** `os.path.basename`: what follows the last slash. */
  function Basename(p: string): (r: string)
    ensures EndsWith(p, r)
    ensures forall j :: 0 <= j < |r| ==> r[j] != '/'
    ensures |r| < |p| ==> p[|p| - |r| - 1] == '/'
  {
    match LastIndexOf(p, '/')
    case None => p
    case Some(k) => p[k + 1..]
  }

  predicate AllDots(s: string) { forall j :: 0 <= j < |s| ==> s[j] == '.' }

  /** `os.path.splitext`: the extension starts at the last dot of the last path
      component, unless only dots precede that dot within the component. */
  function SplitExt(p: string): (r: (string, string))
    ensures r.0 + r.1 == p
    ensures r.1 == [] || (r.1[0] == '.' && forall j :: 0 < j < |r.1| ==> r.1[j] != '.' && r.1[j] != '/')
  {
    var sepIndex := match LastIndexOf(p, '/') case None => -1 case Some(k) => k;
    match LastIndexOf(p, '.')
    case None => (p, [])
    case Some(d) =>
      if d > sepIndex && !AllDots(p[sepIndex + 1..d]) then (p[..d], p[d..]) else (p, [])
  }

  function Stem(p: string): string { SplitExt(p).0 }
  function Ext(p: string): string { SplitExt(p).1 }

  /** A name made of a stem (not all dots, no slash) and an extension "." + e
      (no dot, no slash in e) splits back into exactly those two parts. */
  lemma {:induction false} SplitExtOfJoined(stem: string, e: string)
    requires forall j :: 0 <= j < |stem| ==> stem[j] != '/'
    requires !AllDots(stem)
    requires forall j :: 0 <= j < |e| ==> e[j] != '.' && e[j] != '/'
    ensures SplitExt(stem + "." + e) == (stem, "." + e)
  {
    var p := stem + "." + e;
    var d := |stem|;
    assert p[d] == '.';
    assert forall j :: d < j < |p| ==> p[j] == e[j - d - 1];
    var li := LastIndexOf(p, '.');
    assert li == Some(d);
    var ls := LastIndexOf(p, '/');
    assert ls.None? by {
      forall j | 0 <= j < |p| ensures p[j] != '/' {
        if j < d { assert p[j] == stem[j]; }
      }
    }
    assert p[0..d] == stem;
    assert p[..d] == stem && p[d..] == "." + e;
  }

  /** `os.path.join` of two components. */
  function Join(a: string, b: string): (r: string)
    ensures StartsWith(b, "/") ==> r == b
    ensures !StartsWith(b, "/") ==> EndsWith(r, b) && StartsWith(r, a)
  {
    if StartsWith(b, "/") then b
    else if |a| == 0 || a[|a| - 1] == '/' then a + b
    else a + "/" + b
  }

  /** Joining a relative component onto a directory without a trailing slash
      puts exactly one slash between them. */
  lemma JoinRelative(a: string, b: string)
    requires |a| > 0 && a[|a| - 1] != '/'
    requires |b| > 0 && b[0] != '/'
    ensures Join(a, b) == a + "/" + b
  {
    assert !StartsWith(b, "/") by { assert b[0..1][0] == b[0]; }
  }
}
