/**
 * The ways constructing an experiment can fail. Each kind stands for one
 * exception of the original; its Python class and message text are not modelled.
 */
module Errors {

  datatype Err =
    | InvalidInputType       // an instruction is not a string (a TypeError)
    | InvalidParameterType   // the parameters are not a dictionary (a TypeError)
    | MalformedInstruction   // the instruction has neither a "for" nor an "until" clause
    | UnrecognizedAction     // the word before "at" is not an action
    | UnparsableInstruction  // the words fit none of the instruction shapes
    | UnknownUnit            // the unit is not one of A, mA, C, V, W, mW
    | UnknownTimeUnit        // the time unit is not seconds, minutes or hours
    | InvalidNumber          // a magnitude or duration is not a decimal number

  /** Errors that belong to a single instruction string, as opposed to the constructor's arguments. */
  predicate IsInstructionError(e: Err) {
    !(e == InvalidInputType || e == InvalidParameterType)
  }
}
