/** Shared vocabulary: optional values, results, and the exceptions the
    modelled Python code raises or catches. */
module PyCore {
  datatype Option<+T> = None | Some(value: T)

  /** The exception classes that the modelled code raises, propagates or catches. */
  datatype Error =
    | ValueError       // pandas/numpy shape errors, bad dialog tuples, zero array_split sections
    | KeyError         // missing dictionary key or DataFrame column
    | IndexError       // list or axes index out of range
    | TypeError        // bad call signature, arithmetic on None
    | LinAlgError      // np.linalg.inv of a singular matrix
    | ZeroDivisionError
    | NonFinite        // numpy would yield inf/NaN (division by a zero float) instead of raising
    | OSError          // file-system failure
    | NameError        // a local variable read before any assignment (UnboundLocalError)
    | AttributeError   // an attribute read through None

  datatype Result<+T> = Ok(value: T) | Err(error: Error)

  function Max(a: int, b: int): int { if a >= b then a else b }
  function Min(a: int, b: int): int { if a <= b then a else b }
  function MinReal(a: real, b: real): real { if a <= b then a else b }
  function MaxReal(a: real, b: real): real { if a >= b then a else b }
  function AbsReal(x: real): real { if x < 0.0 then -x else x }

  /** True when no element of `s` occurs twice. */
  predicate Distinct<T(==)>(s: seq<T>) {
    forall a, b | 0 <= a < b < |s| :: s[a] != s[b]
  }

  /** A Qt list widget after adding, in turn, each name it does not show
      yet: it keeps what it showed, in place, gains exactly the missing
      names, and never shows a name twice unless it did before. */
  function Listed(items: seq<string>, names: seq<string>): (r: seq<string>)
    ensures forall x :: x in r <==> x in items || x in names
    ensures |items| <= |r| && r[..|items|] == items
    ensures Distinct(items) ==> Distinct(r)
  {
    if |names| == 0 then items
    else
      var front := Listed(items, names[..|names| - 1]);
      var last := names[|names| - 1];
      assert forall x :: x in names <==> x in names[..|names| - 1] || x == last by {
        assert names == names[..|names| - 1] + [last];
      }
      if last in front then front else front + [last]
  }

  /** Python's `//` (floor division) for a positive divisor; for a negative one it rounds toward minus infinity too. */
  function FloorDiv(a: int, b: int): (q: int)
    requires b != 0
    ensures b > 0 ==> q * b <= a < q * b + b
    ensures b < 0 ==> q * b >= a > q * b + b
  {
    if b > 0 then a / b
    else if a % (-b) == 0 then -(a / (-b))
    else -(a / (-b)) - 1
  }
}
