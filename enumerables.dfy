/** The two facts about Ruby's Enumerable that the menu logic relies on. */
module Enumerables {
  import opened Wrappers

  /** Enumerable#detect, reported as the position of the element it returns:
      the first element satisfying `p`, or None when there is none. */
  function Detect<T>(s: seq<T>, p: T -> bool): (r: Option<nat>)
    ensures r.Some? ==> r.value < |s| && p(s[r.value])
    ensures r.Some? ==> forall j :: 0 <= j < r.value ==> !p(s[j])
    ensures r.None? <==> forall j :: 0 <= j < |s| ==> !p(s[j])
    decreases |s|
  {
    if |s| == 0 then None
    else if p(s[0]) then Some(0)
    else
      match Detect(s[1..], p)
      case None => None
      case Some(i) => Some(i + 1)
  }

  /** Detect on a longer sequence: an element found in the prefix is still the
      one returned, and the new element is reached only when the prefix has none. */
  lemma {:induction false} DetectAppend<T>(s: seq<T>, x: T, p: T -> bool)
    ensures Detect(s + [x], p) ==
      if Detect(s, p).Some? then Detect(s, p)
      else if p(x) then Some(|s|)
      else None
    decreases |s|
  {
    if |s| > 0 && !p(s[0]) {
      assert (s + [x])[1..] == s[1..] + [x];
      DetectAppend(s[1..], x, p);
    }
  }

  /** `a` is `b` with some elements dropped, the rest kept in order. */
  predicate IsSubsequence<T(==)>(a: seq<T>, b: seq<T>)
    decreases |b|
  {
    if a == [] then true
    else if b == [] then false
    else (a[|a| - 1] == b[|b| - 1] && IsSubsequence(a[..|a| - 1], b[..|b| - 1]))
         || IsSubsequence(a, b[..|b| - 1])
  }
}
