/** Small value wrappers shared by every module of the model. */
module Wrappers {

  /** An optional value: a JavaScript `undefined`/`null` or a present value. */
  datatype Option<+T> = None | Some(value: T) {

    /** The value, or `default` when there is none (JavaScript's `?? default`). */
    function GetOr(default: T): T {
      match this
      case Some(v) => v
      case None => default
    }
  }

  /** What a call into another process or over the network resolved with:
      its value, or a rejection.  The model never performs these calls; it
      receives their results as inputs. */
  datatype Reply<+T> = Ok(value: T) | Failed

  /** A call that resolves with nothing, or rejects. */
  datatype Outcome = Done | Threw
}
