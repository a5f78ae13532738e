/** Optional values: a model call or a validation that may produce nothing. */
module Wrappers {

  datatype Option<+T> = None | Some(value: T) {

    /** The wrapped value, or `default` when there is none. */
    function GetOr(default: T): T {
      match this
      case Some(v) => v
      case None => default
    }
  }

  /**
   * Turns a sequence of optional values into an optional sequence: `Some` of all
   * the values when every element is present, `None` as soon as one is missing.
   */
  function AllSome<T>(xs: seq<Option<T>>): (r: Option<seq<T>>)
    ensures r.Some? <==> forall i :: 0 <= i < |xs| ==> xs[i].Some?
    ensures r.Some? ==> |r.value| == |xs| && forall i :: 0 <= i < |xs| ==> r.value[i] == xs[i].value
  {
    if xs == [] then Some([])
    else match xs[0]
      case None => None
      case Some(x) =>
        match AllSome(xs[1..])
        case None => None
        case Some(rest) => Some([x] + rest)
  }
}
