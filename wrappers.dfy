/** The conventional optional value, used for Go's nil error and nil results. */
module Wrappers {

  datatype Option<+T> = None | Some(value: T)

  /** The zero or one values an optional holds, as a sequence. */
  function ToSeq<T>(o: Option<T>): (r: seq<T>)
    ensures |r| <= 1
    ensures o.Some? <==> |r| == 1
    ensures o.Some? ==> r[0] == o.value
  {
    match o
    case None => []
    case Some(v) => [v]
  }
}
