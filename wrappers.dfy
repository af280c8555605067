/** Small value wrappers shared by every module of the model. */
module Wrappers {

  /** The conventional optional value (Python's `None` or a value). */
  datatype Option<+T> = None | Some(value: T) {
    /** The value, or `default` when there is none (Python's `d.get(k, default)`). */
    function GetOr(default: T): T {
      match this
      case None => default
      case Some(v) => v
    }

    /** Zero or one element, for logs that an optional call may extend. */
    function ToSeq(): (s: seq<T>)
      ensures |s| <= 1
      ensures |s| == 1 <==> Some?
      ensures Some? ==> s[0] == value
    {
      match this
      case None => []
      case Some(v) => [v]
    }
  }

  /**
   * One key of a Python dict as the caller sees it: the key is not there
   * at all, it is there holding `None`, or it is there holding a value.
   */
  datatype Field<+T> = Absent | Null | Val(value: T) {
    predicate Present() { !Absent? }
  }

  /** A Python optional carried into a dict under a key that is always written. */
  function FromOption<T>(o: Option<T>): (f: Field<T>)
    ensures f.Present()
    ensures f.Val? <==> o.Some?
    ensures o.Some? ==> f.value == o.value
  {
    match o
    case None => Null
    case Some(v) => Val(v)
  }
}
