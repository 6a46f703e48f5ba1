/** Python's slice notation on lists and strings, including negative bounds. */
module Slices {

  /** The index a slice bound `k` stands for in a sequence of length `n`:
      a negative bound counts from the end, and both ends are clamped. */
  function Bound(k: int, n: nat): (b: nat)
    ensures b <= n
    ensures 0 <= k <= n ==> b == k
    ensures k > n ==> b == n
    ensures k < 0 ==> b == if n + k < 0 then 0 else n + k
  {
    if k < 0 then (if n + k < 0 then 0 else n + k)
    else if k > n then n
    else k
  }

  /** `s[:k]` */
  function SliceTo<T>(s: seq<T>, k: int): (r: seq<T>)
  {
    s[..Bound(k, |s|)]
  }

  /** `s[k:]` */
  function SliceFrom<T>(s: seq<T>, k: int): (r: seq<T>)
  {
    s[Bound(k, |s|)..]
  }
}
