/** The Python string operations the modelled code relies on: `in`,
    `startswith`, `endswith`, `split(sep)[0]`, `lower()` and `str(n)`. */
module PyStr {
  import opened PyCore

  /** `p` occurs in `s` starting at index `k`. */
  predicate OccursAt(s: string, p: string, k: int) {
    0 <= k && k + |p| <= |s| && s[k..k + |p|] == p
  }

  predicate StartsWith(s: string, p: string) { OccursAt(s, p, 0) }

  predicate EndsWith(s: string, p: string) { |p| <= |s| && s[|s| - |p|..] == p }

  /** The first index at or after `i` where `p` occurs in `s` (`str.find` with a start). */
  function FindFrom(s: string, p: string, i: nat): (r: Option<nat>)
    ensures r.Some? ==> i <= r.value && OccursAt(s, p, r.value)
    ensures r.Some? ==> forall k :: i <= k < r.value ==> !OccursAt(s, p, k)
    ensures r.None? ==> forall k :: i <= k ==> !OccursAt(s, p, k)
    decreases |s| - i
  {
    if i + |p| > |s| then None
    else if s[i..i + |p|] == p then Some(i)
    else FindFrom(s, p, i + 1)
  }

  function Find(s: string, p: string): Option<nat> { FindFrom(s, p, 0) }

  /** Python's `p in s`. */
  predicate Contains(s: string, p: string) { Find(s, p).Some? }

  lemma ContainsIff(s: string, p: string)
    ensures Contains(s, p) <==> exists k :: OccursAt(s, p, k)
  {
    if exists k :: OccursAt(s, p, k) {
      var k :| OccursAt(s, p, k);
      assert 0 <= k;
    }
  }

  /** Python's `s.split(sep)[0]`: everything before the first occurrence of `sep`, or all of `s`. */
  function SplitHead(s: string, sep: string): (r: string)
    requires |sep| > 0
    ensures StartsWith(s, r)
    ensures r == s || OccursAt(s, sep, |r|)
    ensures forall k :: 0 <= k && k + |sep| <= |r| ==> !OccursAt(s, sep, k)
  {
    match Find(s, sep)
    case None => s
    case Some(k) => s[..k]
  }

  /** A separator whose first character does not occur again inside it can only be
      found, in `a + sep + b`, right where it was placed, provided `a` does not hold it. */
  lemma {:induction false} SplitHeadOfJoined(a: string, sep: string, b: string)
    requires |sep| > 0
    requires forall t :: 0 < t < |sep| ==> sep[t] != sep[0]
    requires !Contains(a, sep)
    ensures SplitHead(a + sep + b, sep) == a
  {
    var s := a + sep + b;
    ContainsIff(a, sep);
    forall k | 0 <= k < |a| ensures !OccursAt(s, sep, k) {
      if k + |sep| <= |a| {
        assert s[k..k + |sep|] == a[k..k + |sep|];
        assert !OccursAt(a, sep, k);
      } else {
        var t := |a| - k;
        assert s[k..k + |sep|][t] == sep[0] != sep[t];
      }
    }
    assert s[|a|..|a| + |sep|] == sep;
    assert OccursAt(s, sep, |a|);
    assert s[..|a|] == a;
  }

  /** A string in which `sep` does not occur is its own head. */
  lemma SplitHeadAbsent(s: string, sep: string)
    requires |sep| > 0 && !Contains(s, sep)
    ensures SplitHead(s, sep) == s
  {
  }

  /** Python's `s.split(sep)[1]`, present when `sep` occurs in `s`: the text
      between its first occurrence and the next one, or the end. */
  function SplitSecond(s: string, sep: string): (r: Option<string>)
    requires |sep| > 0
    ensures r.None? <==> !Contains(s, sep)
  {
    match Find(s, sep)
    case None => None
    case Some(k) => Some(SplitHead(s[k + |sep|..], sep))
  }

  /** What occurs in a prefix occurs in the whole string. */
  lemma ContainsFromPrefix(s: string, h: string, p: string)
    requires StartsWith(s, h) && Contains(h, p)
    ensures Contains(s, p)
  {
    ContainsIff(h, p);
    var k :| OccursAt(h, p, k);
    assert OccursAt(s, p, k) by {
      assert s[..|h|] == h;
      assert s[k..k + |p|] == s[..|h|][k..k + |p|];
    }
    ContainsIff(s, p);
  }

  function LowerChar(c: char): char {
    if 'A' <= c <= 'Z' then (c as int + 32) as char else c
  }

  /** `str.lower()` restricted to ASCII letters. */
  function Lower(s: string): (r: string)
    ensures |r| == |s|
    ensures forall i :: 0 <= i < |s| ==> r[i] == LowerChar(s[i])
  {
    seq(|s|, i requires 0 <= i < |s| => LowerChar(s[i]))
  }

  /** Lowering keeps every occurrence, so a name holding "_clean" still holds it once lowered. */
  lemma LowerKeepsOccurrence(s: string, p: string, k: int)
    requires OccursAt(s, p, k)
    ensures OccursAt(Lower(s), Lower(p), k)
  {
    assert Lower(s)[k..k + |p|] == Lower(p) by {
      forall i | 0 <= i < |p| ensures Lower(s)[k..k + |p|][i] == Lower(p)[i] {
        assert s[k..k + |p|][i] == p[i];
      }
    }
  }

  lemma LowerKeepsContains(s: string, p: string)
    requires Contains(s, p)
    ensures Contains(Lower(s), Lower(p))
  {
    ContainsIff(s, p);
    var k :| OccursAt(s, p, k);
    LowerKeepsOccurrence(s, p, k);
    ContainsIff(Lower(s), Lower(p));
  }

  function Digit(d: nat): char requires d < 10 { ('0' as int + d) as char }

  /** `str(n)` for a non-negative integer. */
  function NatToString(n: nat): (r: string)
    ensures |r| > 0
    ensures forall i :: 0 <= i < |r| ==> '0' <= r[i] <= '9'
  {
    if n < 10 then [Digit(n)] else NatToString(n / 10) + [Digit(n % 10)]
  }

  /** `str(i)` for any integer. */
  function IntToString(i: int): (r: string)
    ensures |r| > 0
  {
    if i < 0 then "-" + NatToString(-i) else NatToString(i)
  }

  function ParseNat(s: string): nat {
    if |s| == 0 then 0
    else ParseNat(s[..|s| - 1]) * 10 + (if '0' <= s[|s| - 1] <= '9' then s[|s| - 1] as int - '0' as int else 0)
  }

  /** Decimal rendering is undone by parsing, so distinct numbers give distinct strings. */
  lemma {:induction false} ParseNatToString(n: nat)
    ensures ParseNat(NatToString(n)) == n
  {
    if n >= 10 {
      var s := NatToString(n);
      assert s[..|s| - 1] == NatToString(n / 10);
      ParseNatToString(n / 10);
    }
  }

  lemma NatToStringInjective(a: nat, b: nat)
    requires NatToString(a) == NatToString(b)
    ensures a == b
  {
    ParseNatToString(a);
    ParseNatToString(b);
  }
}
