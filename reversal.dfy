/** Reversal of a sequence, the operation the buffer applies to its storage and to batches. */
module Reversal {

  /** `s` in the opposite order: element `k` of the result is element `|s| - 1 - k` of `s`. */
  function Reversed<T>(s: seq<T>): (r: seq<T>)
    ensures |r| == |s|
    ensures forall k :: 0 <= k < |s| ==> r[k] == s[|s| - 1 - k]
  {
    if s == [] then [] else Reversed(s[1..]) + [s[0]]
  }
}
