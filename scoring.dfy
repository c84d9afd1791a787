/**
 * Vocabulary shared by the two server analyzers and the endpoint that merges
 * their results: issue records and the score arithmetic of Python's `int()`
 * and `max(0, min(100, ...))`.
 */
module Scoring {

  /** The `severity` field of an issue dictionary. */
  datatype Severity = Info | Warning | Error

  /**
   * One issue dictionary.  The `description` text is left out of the model:
   * where it is not constant it is an f-string over floating-point values.
   */
  datatype Issue = Issue(severity: Severity, title: string, suggestion: string)

  /** Python's `int(x)` on a float: truncation toward zero. */
  function Trunc(x: real): (r: int)
    ensures 0.0 <= x ==> 0 <= r && r as real <= x < r as real + 1.0
    ensures x < 0.0 ==> r <= 0 && r as real - 1.0 < x <= r as real
  {
    if x >= 0.0 then x.Floor else -((-x).Floor)
  }

  /** `max(lo, min(hi, v))`. */
  function Clamp(lo: int, hi: int, v: int): (r: int)
    requires lo <= hi
    ensures lo <= r <= hi
    ensures lo <= v <= hi ==> r == v
    ensures v < lo ==> r == lo
    ensures hi < v ==> r == hi
  {
    if v < lo then lo else if v > hi then hi else v
  }

  /** `max(0, min(100, v))`, the clamp every score goes through. */
  function Clamp100(v: int): (r: int)
    ensures 0 <= r <= 100
    ensures 0 <= v <= 100 ==> r == v
  {
    Clamp(0, 100, v)
  }

  /** The sum of a sequence of floats, added left to right. */
  function Sum(vs: seq<real>): real {
    if vs == [] then 0.0 else Sum(vs[..|vs| - 1]) + vs[|vs| - 1]
  }

  /** `np.mean` of a non-empty array. */
  function Mean(vs: seq<real>): real
    requires vs != []
  {
    Sum(vs) / |vs| as real
  }

  /** `abs` / `np.abs`. */
  function Abs(x: real): (r: real)
    ensures 0.0 <= r && (r == x || r == -x)
  {
    if x < 0.0 then -x else x
  }

  /** Python's `s[:n]`: the first `n` elements, or all of them when there are fewer. */
  function Take<T>(s: seq<T>, n: nat): (r: seq<T>)
    ensures |r| == if |s| <= n then |s| else n
    ensures r == s[..|r|]
  {
    if |s| <= n then s else s[..n]
  }
}
