/** The two file-name rules the GUI managers share: the key of a file is the
    text before its first ".", and the base name of a file is the text before
    its first "_clean" when it has one, or else its key. The same rule is
    written out in app/ui/processing/data_processing.py,
    app/ui/managers/iteration_manager.py, app/ui/plotting.py and
    app/ui/operations/file_operations.py. */
module Naming {
  import opened PyStr

  const CleanMarker := "_clean"

  /** `file_name.split(".")[0]` */
  function DotKey(name: string): (r: string)
    ensures StartsWith(name, r)
    ensures r == name || OccursAt(name, ".", |r|)
    ensures forall k :: 0 <= k && k + 1 <= |r| ==> !OccursAt(name, ".", k)
  {
    SplitHead(name, ".")
  }

  /** The base-name rule. */
  function BaseName(name: string): (r: string)
    ensures StartsWith(name, r)
    ensures Contains(name, CleanMarker) ==> OccursAt(name, CleanMarker, |r|)
    ensures !Contains(name, CleanMarker) ==> r == DotKey(name)
  {
    if Contains(name, CleanMarker) then SplitHead(name, CleanMarker) else DotKey(name)
  }

  /** A key holds no ".", and a base name holds no "_clean". */
  lemma BaseNameShape(name: string)
    ensures !Contains(DotKey(name), ".")
    ensures StartsWith(name, BaseName(name))
    ensures Contains(name, CleanMarker) ==> !Contains(BaseName(name), CleanMarker)
  {
    ContainsPrefix(name, DotKey(name), ".");
    if Contains(name, CleanMarker) {
      ContainsPrefix(name, BaseName(name), CleanMarker);
    }
  }

  /** A prefix ending before the first occurrence of `p` does not hold `p`. */
  lemma ContainsPrefix(s: string, h: string, p: string)
    requires |p| > 0 && h == SplitHead(s, p)
    ensures !Contains(h, p)
  {
    ContainsIff(h, p);
    if exists k :: OccursAt(h, p, k) {
      var k :| OccursAt(h, p, k);
      assert s[k..k + |p|] == h[k..k + |p|];
      assert OccursAt(s, p, k);
    }
  }

  /** `stem.ext` has the key `stem` when the stem holds no dot. */
  lemma DotKeyOfNamed(stem: string, ext: string)
    requires !Contains(stem, ".")
    ensures DotKey(stem + "." + ext) == stem
  {
    SplitHeadOfJoined(stem, ".", ext);
  }

  /** Every name made from a base by appending `_clean` and anything after it
      has that base name back, provided the base holds no "_clean". */
  lemma BaseNameOfCleanName(base: string, rest: string)
    requires !Contains(base, CleanMarker)
    ensures BaseName(base + CleanMarker + rest) == base
  {
    var s := base + CleanMarker + rest;
    assert OccursAt(s, CleanMarker, |base|) by { assert s[|base|..|base| + 6] == CleanMarker; }
    ContainsIff(s, CleanMarker);
    SplitHeadOfJoined(base, CleanMarker, rest);
  }

  /** A plain data file `stem.ext` has the base name `stem`. */
  lemma BaseNameOfPlainName(stem: string, ext: string)
    requires !Contains(stem, ".") && !Contains(stem + "." + ext, CleanMarker)
    ensures BaseName(stem + "." + ext) == stem
  {
    DotKeyOfNamed(stem, ext);
  }
}
