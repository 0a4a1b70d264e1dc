/** Option and Result, for the values the adapter treats as possibly absent
    (`undefined`/`null`) and for the one failure it lets propagate. */
module Wrappers {

  /** A value that may be missing: `undefined` or `null` in the adapter. */
  datatype Option<+T> = None | Some(value: T) {

    /** The wrapped value, or `default` when missing (the `??` operator). */
    function GetOr(default: T): T {
      match this
      case Some(v) => v
      case None => default
    }

    /** This option, or `other` when this one is missing (`a ?? b` on two options). */
    function OrElse(other: Option<T>): Option<T> {
      match this
      case Some(_) => this
      case None => other
    }
  }

  /** The outcome of an operation that may reject its promise. */
  datatype Result<+T> = Success(value: T) | Failure(error: string)
}
