/**
 * Shared vocabulary of the task syncer model: optional values, results,
 * identifiers, Python truthiness of optional strings, and a first-match
 * search used by every "find the first record that ..." lookup.
 */
module Basics {

  datatype Option<+T> = None | Some(value: T)

  datatype Result<+T, +E> = Ok(value: T) | Err(error: E)

  /** Identifiers are the opaque strings the two providers and the store hand out. */
  type Id = string

  /** The two values of the Google status vocabulary ("needsAction" and "completed"). */
  datatype GoogleStatus = Todo | Done

  /**
   * Python truthiness of an optional string: `None` and `""` are both false.
   * The source tests ids, notes and details with a bare `if x:`.
   */
  predicate Truthy(s: Option<string>)
  {
    s.Some? && s.value != ""
  }

  /** The index of the first element of `s` satisfying `p`, if any. */
  function FirstIndex<T>(s: seq<T>, p: T -> bool): (r: Option<nat>)
    ensures r.Some? ==> r.value < |s| && p(s[r.value])
    ensures r.Some? ==> forall j :: 0 <= j < r.value ==> !p(s[j])
    ensures r.None? <==> forall j :: 0 <= j < |s| ==> !p(s[j])
  {
    if |s| == 0 then None
    else if p(s[0]) then Some(0)
    else
      match FirstIndex(s[1..], p)
      case None => None
      case Some(k) => Some(k + 1)
  }

  /** The first element of `s` satisfying `p`, if any (a Mongo `find_one`, a Python `next(filter(...))`). */
  function First<T>(s: seq<T>, p: T -> bool): (r: Option<T>)
    ensures r.Some? ==> r.value in s && p(r.value)
    ensures r.None? <==> forall j :: 0 <= j < |s| ==> !p(s[j])
  {
    match FirstIndex(s, p)
    case None => None
    case Some(k) => Some(s[k])
  }

  /** `First` of a non-empty prefix-free search is the element at the first index. */
  lemma FirstIsAtFirstIndex<T>(s: seq<T>, p: T -> bool, i: nat)
    requires i < |s| && p(s[i])
    requires forall j :: 0 <= j < i ==> !p(s[j])
    ensures First(s, p) == Some(s[i])
  {
  }

  /**
   * The id a provider assigns to the n-th task it creates in this model.
   * Distinct counters give distinct ids.
   */
  function MintedId(n: nat): (id: Id)
    ensures |id| == n + 1
  {
    seq(n + 1, _ => '#')
  }
}
