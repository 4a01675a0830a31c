/** Small failure-carrying datatypes shared by the model.
    `Option` stands for JavaScript's `T | undefined` / `T | null`;
    `Outcome` stands for a call that either returns a value or throws. */
module Wrappers {

  datatype Option<+T> = None | Some(value: T) {
    function GetOr(default: T): T {
      match this
      case Some(v) => v
      case None => default
    }
  }

  datatype Outcome<+T> = Returned(value: T) | Threw
}
