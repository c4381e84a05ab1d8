/** First-match search over a list, as `next((x for x in items if ...), None)` does it. */
module Search {

  datatype Option<+T> = None | Some(value: T)

  /** The position of the first element satisfying `p`, or `|s|` when there is none. */
  function FirstIndex<T>(s: seq<T>, p: T -> bool): (i: nat)
    ensures i <= |s|
    ensures i < |s| ==> p(s[i])
    ensures forall j | 0 <= j < i :: !p(s[j])
  {
    if s == [] then 0
    else if p(s[0]) then 0
    else
      var rest := FirstIndex(s[1..], p);
      assert forall j | 0 < j < rest + 1 :: s[j] == s[1..][j - 1];
      1 + rest
  }
}
