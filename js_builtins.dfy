/**
 * The few pieces of JavaScript's built-in behaviour the viewer relies on:
 * Math.min, Math.max and Array.prototype.slice.
 */
module JsBuiltins {

  function Min(a: int, b: int): (r: int)
    ensures r <= a && r <= b && (r == a || r == b)
  {
    if a <= b then a else b
  }

  function Max(a: int, b: int): (r: int)
    ensures r >= a && r >= b && (r == a || r == b)
  {
    if a >= b then a else b
  }

  /** How slice normalises an index: a negative one counts back from the end,
      and the result is clamped to [0, len]. */
  function ClampIndex(i: int, len: nat): (r: nat)
    ensures r <= len
    ensures 0 <= i ==> r == Min(i, len)
    ensures i < 0 ==> r == Max(len + i, 0)
  {
    if i < 0 then Max(len + i, 0) else Min(i, len)
  }

  /** s.slice(start, end): the elements from the normalised start up to, not
      including, the normalised end; empty when the end does not lie past the start. */
  function Slice<T>(s: seq<T>, start: int, end: int): (r: seq<T>)
    ensures |r| <= |s|
    ensures 0 <= start <= |s| && start <= end ==> r == s[start..Min(end, |s|)]
    ensures 0 <= end <= start ==> r == []
  {
    var lo := ClampIndex(start, |s|);
    var hi := ClampIndex(end, |s|);
    if lo < hi then s[lo..hi] else []
  }
}
