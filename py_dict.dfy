/** A Python `dict`: a key-to-value mapping that remembers insertion order.
    Assigning to an existing key keeps its position; `next(iter(d))` is the
    oldest key still present. */
module PyDict {
  import opened PyCore

  datatype Dict<K(==), V> = Dict(keys: seq<K>, items: map<K, V>)

  /** The keys are listed once each, and exactly the mapped keys are listed. */
  ghost predicate Valid<K(!new), V>(d: Dict<K, V>) {
    Distinct(d.keys) && (forall k :: k in d.items <==> k in d.keys)
  }

  function Empty<K(==,!new), V>(): (r: Dict<K, V>)
    ensures Valid(r) && |r.keys| == 0
  {
    Dict([], map[])
  }

  /** Position of a listed key. */
  function IndexOf<K(==)>(s: seq<K>, k: K): (i: nat)
    requires k in s
    ensures i < |s| && s[i] == k
    ensures forall j :: 0 <= j < i ==> s[j] != k
  {
    if s[0] == k then 0 else 1 + IndexOf(s[1..], k)
  }

  /** Drops `k` from a list of keys. */
  function Without<K(==,!new)>(s: seq<K>, k: K): (r: seq<K>)
    ensures forall x :: x in r <==> x in s && x != k
    ensures Distinct(s) ==> Distinct(r)
    ensures |r| <= |s|
    ensures k !in s ==> r == s
  {
    if |s| == 0 then []
    else if s[0] == k then Without(s[1..], k)
    else
      assert Distinct(s) ==> s[0] !in s[1..] && Distinct(s[1..]) by {
        if Distinct(s) {
          forall j | 0 <= j < |s[1..]| ensures s[1..][j] != s[0] { assert s[1..][j] == s[j + 1]; }
        }
      }
      [s[0]] + Without(s[1..], k)
  }

  /** `d[k] = v` */
  function Put<K(==,!new), V>(d: Dict<K, V>, k: K, v: V): (r: Dict<K, V>)
    requires Valid(d)
    ensures Valid(r)
    ensures r.items == d.items[k := v]
    ensures k in d.keys ==> r.keys == d.keys
    ensures k !in d.keys ==> r.keys == d.keys + [k]
  {
    if k in d.keys then Dict(d.keys, d.items[k := v]) else Dict(d.keys + [k], d.items[k := v])
  }

  /** `d.pop(k, None)` / `del d[k]` on a present key. */
  function Remove<K(==,!new), V>(d: Dict<K, V>, k: K): (r: Dict<K, V>)
    requires Valid(d)
    ensures Valid(r)
    ensures r.items == d.items - {k}
    ensures forall x :: x in r.keys <==> x in d.keys && x != k
  {
    Dict(Without(d.keys, k), d.items - {k})
  }

  /** `next(iter(d))`, or None for an empty dict. */
  function First<K(==,!new), V>(d: Dict<K, V>): (r: Option<K>)
    requires Valid(d)
    ensures r.None? <==> |d.items| == 0
    ensures r.Some? ==> r.value in d.items && r.value == d.keys[0]
  {
    if |d.keys| == 0 then
      None
    else
      assert d.keys[0] in d.items;
      Some(d.keys[0])
  }

  /** Removing keys from the front of the order leaves the rest in order. */
  lemma {:induction false} WithoutKeepsOrder<K(!new)>(s: seq<K>, k: K, a: nat, b: nat)
    requires Distinct(s) && a < b < |s| && s[a] != k && s[b] != k
    ensures s[a] in Without(s, k) && s[b] in Without(s, k)
    ensures IndexOf(Without(s, k), s[a]) < IndexOf(Without(s, k), s[b])
    decreases |s|
  {
    if s[0] == k {
      WithoutKeepsOrder(s[1..], k, a - 1, b - 1);
    } else if a == 0 {
      assert s[b] in Without(s[1..], k);
    } else {
      WithoutKeepsOrder(s[1..], k, a - 1, b - 1);
    }
  }

  /** Removing the oldest key drops the head of the order. */
  lemma WithoutFirst<K(!new)>(s: seq<K>)
    requires Distinct(s) && |s| > 0
    ensures Without(s, s[0]) == s[1..]
  {
    assert s[0] !in s[1..] by {
      forall j | 0 <= j < |s| - 1 ensures s[1..][j] != s[0] { assert s[1..][j] == s[j + 1]; }
    }
  }
}
