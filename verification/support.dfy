/**
 * Values shared by the modules of this model: Java's nullable references,
 * the exceptions the modelled code throws, and the `filter(..).findFirst()`
 * stream idiom that several lookups use.
 */
module Support {

  /** A Java reference that may be null. */
  datatype Option<+T> = None | Some(value: T)

  /** The Java exceptions raised by the modelled code, with their messages. */
  datatype JavaException =
    | IllegalArgument(message: string)
    | IllegalState(message: string)
    | NullPointer
    | BeanInitialization(message: string)

  /** A value, or the exception thrown instead of returning it. */
  datatype Result<+T> = Ok(value: T) | Err(error: JavaException)

  /** The completion of a `void` Java method: normal return or an exception. */
  datatype Outcome = Done | Threw(error: JavaException)

  /** `i` is the position of the first element of `s` that satisfies `p`. */
  ghost predicate IsFirstMatch<T>(s: seq<T>, p: T -> bool, i: nat)
  {
    i < |s| && p(s[i]) && forall j :: 0 <= j < i ==> !p(s[j])
  }

  /**
   * The position of the first element of `s` that satisfies `p`, or None
   * when no element does: `stream().filter(p).findFirst()` on an ordered
   * stream, reporting where the element was found.
   */
  function FirstIndex<T>(s: seq<T>, p: T -> bool): (r: Option<nat>)
    ensures r.None? <==> forall i :: 0 <= i < |s| ==> !p(s[i])
    ensures r.Some? ==> IsFirstMatch(s, p, r.value)
  {
    if |s| == 0 then None
    else if p(s[0]) then Some(0)
    else match FirstIndex(s[1..], p)
      case None => None
      case Some(i) => Some(i + 1)
  }

  /** `stream().filter(p).findFirst()`: the first element satisfying `p`. */
  function FindFirst<T>(s: seq<T>, p: T -> bool): (r: Option<T>)
    ensures r.None? <==> forall i :: 0 <= i < |s| ==> !p(s[i])
    ensures r.Some? ==> exists i: nat :: IsFirstMatch(s, p, i) && s[i] == r.value
  {
    match FirstIndex(s, p)
    case None => None
    case Some(i) => Some(s[i])
  }
}
