/** Outcomes shared by the resolver: an optional value, and a result that is
    either a value or one of the fatal conditions `main` can end in before the
    simulation clock starts. */
module Errors {

  datatype Option<+T> = None | Some(value: T)

  /** Every way the configuration part of `main` stops the program. */
  datatype Fatal =
    | TypeIdNotFound(typeName: string)        // NS_ABORT_MSG_UNLESS on the TypeId lookup
    | SubstrOutOfRange(pos: nat, size: nat)   // std::out_of_range thrown by substr
    | DivisionByZero                          // size / mtu_bytes with mtu_bytes == 0
    | QueueNotRecognized(name: string)        // NS_FATAL_ERROR on the queue-disc name

  /** A value, or the fatal condition that stopped the run; usable with `:-`. */
  datatype Result<+T> = Ok(value: T) | Err(error: Fatal) {

    predicate IsFailure() {
      Err?
    }

    function PropagateFailure<U>(): Result<U>
      requires Err?
    {
      Err(error)
    }

    function Extract(): T
      requires Ok?
    {
      value
    }
  }
}
