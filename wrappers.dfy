/** Optional values, used for lookups and for results that may be missing. */
module Wrappers {

  datatype Option<+T> = None | Some(value: T)

  /** The option as a sequence of zero or one element. */
  function OptionToSeq<T>(o: Option<T>): (s: seq<T>)
    ensures |s| <= 1
    ensures o.Some? <==> |s| == 1
    ensures o.Some? ==> s[0] == o.value
  {
    match o
    case None => []
    case Some(v) => [v]
  }
}
