/** Python's extended slice `s[::step]`: the elements at indices
    `0, step, 2 * step, ...` below `len(s)`. */
module PySlice {
  /** The number of indices `0, step, 2*step, ...` below `n`. */
  function StrideCount(n: nat, step: nat): (c: nat)
    requires step > 0
    ensures forall k: nat :: k < c <==> k * step < n
  {
    var c := (n + step - 1) / step;
    assert c * step <= n + step - 1 < c * step + step;
    forall k: nat ensures k < c <==> k * step < n {
      if k < c {
        assert k + 1 <= c;
        assert (k + 1) * step <= c * step;
      } else {
        assert c <= k;
        assert c * step <= k * step;
      }
    }
    c
  }

  /** The first `c` elements at multiples of `step`. */
  function Picked<T>(s: seq<T>, c: nat, step: nat): (r: seq<T>)
    requires step > 0 && (c == 0 || (c - 1) * step < |s|)
    ensures |r| == c && forall k | 0 <= k < c :: k * step < |s| && r[k] == s[k * step]
  {
    assert forall k | 0 <= k < c :: k * step < |s| by {
      forall k | 0 <= k < c ensures k * step < |s| { MulMonotone(k, c - 1, step); }
    }
    seq(c, k requires 0 <= k < c => s[k * step])
  }

  /** `s[::step]` */
  function Strided<T>(s: seq<T>, step: nat): (r: seq<T>)
    requires step > 0
    ensures |r| == StrideCount(|s|, step)
    ensures forall k | 0 <= k < |r| :: k * step < |s| && r[k] == s[k * step]
  {
    var c := StrideCount(|s|, step);
    assert c == 0 || (c - 1) * step < |s|;
    Picked(s, c, step)
  }

  lemma MulMonotone(a: nat, b: nat, step: nat)
    requires a <= b
    ensures a * step <= b * step
  {
  }
}
