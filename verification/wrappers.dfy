/** An optional value: the model's stand-in for a missing object key
    (`Partial<T>`) and for a `string | null` marker. */
module Wrappers {

  datatype Option<+T> = None | Some(value: T) {

    /** The wrapped value, or `default` when there is none: the behaviour of a
        present key winning over an absent one in an object spread. */
    function GetOr(default: T): T {
      match this
      case Some(v) => v
      case None => default
    }
  }
}
