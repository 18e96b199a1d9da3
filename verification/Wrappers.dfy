/** Optional values, fallible results, and searches, shared by every component model. */
module Wrappers {
  datatype Option<+T> = None | Some(value: T)

  datatype Result<+T, +E> = Success(value: T) | Failure(error: E)

  /** The first index whose element satisfies a predicate. */
  function FirstWhere<T>(s: seq<T>, p: T -> bool): (k: Option<nat>)
    ensures k.Some? ==> k.value < |s| && p(s[k.value]) && forall j :: 0 <= j < k.value ==> !p(s[j])
    ensures k.None? ==> forall j :: 0 <= j < |s| ==> !p(s[j])
  {
    if s == [] then None
    else
      var earlier := FirstWhere(s[..|s| - 1], p);
      if earlier.Some? then earlier else if p(s[|s| - 1]) then Some(|s| - 1) else None
  }

  /** The last index whose element satisfies a predicate. */
  function LastWhere<T>(s: seq<T>, p: T -> bool): (k: Option<nat>)
    ensures k.Some? ==> k.value < |s| && p(s[k.value]) && forall j :: k.value < j < |s| ==> !p(s[j])
    ensures k.None? ==> forall j :: 0 <= j < |s| ==> !p(s[j])
  {
    if s == [] then None
    else if p(s[|s| - 1]) then Some(|s| - 1)
    else LastWhere(s[..|s| - 1], p)
  }
}
