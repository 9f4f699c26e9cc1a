/**
 * The two pieces of PHP semantics the modelled code relies on: the truthiness
 * of a nullable string (used by `empty()`, `array_filter()` and `!$x`) and
 * `implode()`.
 */
module Php {
  import opened Wrappers

  /**
   * A nullable string is falsy in PHP when it is NULL, the empty string or
   * the string "0"; every other string is truthy.
   */
  predicate Falsy(v: Option<string>) {
    v.None? || v.value == "" || v.value == "0"
  }

  /** `implode(sep, parts)`: the parts in order, separated by `sep`. */
  function Implode(sep: string, parts: seq<string>): (r: string)
    ensures |parts| == 0 ==> r == ""
    ensures |parts| == 1 ==> r == parts[0]
    ensures |parts| > 0 ==> |r| >= |parts[0]| && r[..|parts[0]|] == parts[0]
  {
    if |parts| == 0 then ""
    else if |parts| == 1 then parts[0]
    else parts[0] + sep + Implode(sep, parts[1..])
  }

  /** Appending a part adds the separator and the part at the end. */
  lemma {:induction false} ImplodeAppend(sep: string, parts: seq<string>, p: string)
    requires |parts| > 0
    ensures Implode(sep, parts + [p]) == Implode(sep, parts) + sep + p
    decreases |parts|
  {
    if |parts| == 1 {
      assert parts + [p] == [parts[0], p];
    } else {
      assert (parts + [p])[1..] == parts[1..] + [p];
      ImplodeAppend(sep, parts[1..], p);
    }
  }
}
