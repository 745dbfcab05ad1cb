/** Option type shared by the model's modules. */
module Wrappers {
  datatype Option<+T> = None | Some(value: T)

  /** The zero-or-one element sequence holding an Option's value. */
  function OptionToSeq<T>(o: Option<T>): (s: seq<T>)
    ensures |s| <= 1
    ensures o.Some? <==> |s| == 1
    ensures o.Some? ==> s[0] == o.value
  {
    match o
    case None => []
    case Some(v) => [v]
  }
}
