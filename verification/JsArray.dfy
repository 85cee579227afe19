/** The part of JavaScript's Array.prototype.slice (ECMAScript 2023,
    section 23.1.3.28) that the guest list relies on, over integer indices. */
module JsArray {

  function Min(a: int, b: int): int { if a <= b then a else b }

  function Max(a: int, b: int): int { if a <= b then b else a }

  /** Resolves a slice argument against the length: a negative index counts
      back from the end (and stops at 0), a non-negative one stops at `len`. */
  function RelativeIndex(i: int, len: nat): (k: nat)
    ensures k <= len
  {
    if i < 0 then Max(len + i, 0) else Min(i, len)
  }

  /** Resolving never moves two ordered indices further apart. */
  lemma RelativeIndexOrder(a: int, b: int, len: nat)
    ensures a <= b ==> RelativeIndex(b, len) - RelativeIndex(a, len) <= b - a
  {
  }

  /** `s.slice(start, end)`: the elements from the resolved start up to the
      resolved end, or nothing when the resolved end is not past the start. */
  function Slice<T>(s: seq<T>, start: int, end: int): (r: seq<T>)
    ensures |r| == if RelativeIndex(start, |s|) < RelativeIndex(end, |s|)
                   then RelativeIndex(end, |s|) - RelativeIndex(start, |s|) else 0
    ensures |r| <= |s|
    ensures start <= end ==> |r| <= end - start
    ensures |r| > 0 ==> RelativeIndex(start, |s|) + |r| <= |s|
    ensures forall i :: 0 <= i < |r| ==> r[i] == s[RelativeIndex(start, |s|) + i]
    ensures 0 <= start <= end ==> r == s[Min(start, |s|)..Min(end, |s|)]
    ensures |s| <= start ==> r == []
  {
    var from := RelativeIndex(start, |s|);
    var to := RelativeIndex(end, |s|);
    RelativeIndexOrder(start, end, |s|);
    if from < to then s[from..to] else []
  }
}
