/** Option, and the outcome of an operation that may be cut short. */
module Wrappers {

  datatype Option<+T> = None | Some(value: T) {
    function GetOr(default: T): T {
      match this
      case Some(v) => v
      case None => default
    }

    /** The new value when one is supplied, otherwise the old one. */
    static function Override(old_: Option<T>, new_: Option<T>): Option<T> {
      if new_.Some? then new_ else old_
    }
  }

  /** `Died` stands for an exception or a killed process; `:-` propagates it. */
  datatype Outcome = Done | Died {
    predicate IsFailure() {
      Died?
    }

    function PropagateFailure(): Outcome
      requires Died?
    {
      Died
    }
  }

  /** `value or default`: a missing text and an empty one read the same. */
  function Or(value: Option<string>, default: string): string {
    if value.GetOr("") == "" then default else value.value
  }
}
