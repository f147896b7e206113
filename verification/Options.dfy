/** What the other modules share: a value the source leaves `undefined` or `null`, and sequences. */
module Options {
  datatype Option<+T> = None | Some(value: T) {
    function GetOr(default: T): (r: T)
    {
      match this
      case Some(v) => v
      case None => default
    }
  }

  /** Occurrences in `s` of elements satisfying `p`. */
  function Count<T>(s: seq<T>, p: T -> bool): (n: nat)
    ensures n <= |s|
  {
    if s == [] then 0 else Count(s[..|s| - 1], p) + if p(s[|s| - 1]) then 1 else 0
  }

  /** `slice(-n)`: the last `n` elements, or all of them. */
  function Last<T>(s: seq<T>, n: nat): (r: seq<T>)
    ensures |r| == if |s| <= n then |s| else n
  {
    if |s| <= n then s else s[|s| - n..]
  }

  predicate NoRepeats<T(==)>(s: seq<T>) { forall i, j | 0 <= i < j < |s| :: s[i] != s[j] }
}
