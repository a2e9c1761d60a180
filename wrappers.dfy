/** Option and Result types, and the exceptions the command rewriter can raise. */
module Wrappers {

  datatype Option<+T> = None | Some(value: T)

  /** The exceptions raised on the paths of the rewriter that are modelled.  Python raises
      them and they abort the rewriting of one command. */
  datatype Error =
    | IndexOutOfRange               // IndexError: reading past the end of a text or a list
    | NotOpened(opener: char)     // ValueError: a compound, list or string does not start with its opener
    | Missing(expected: string, at: nat)  // ValueError raised by `expect`
    | CompoundNeverClosed           // ValueError: the text ends inside a compound
    | StringNeverClosed             // ValueError: no closing quote
    | InvalidJson                   // ValueError raised by `parse_json`
    | TooManyEquals                 // ValueError: a selector argument holding two `=`
    | UnknownItemId(id: int)        // KeyError: a numeric id missing from the item table
    | BadNumber                     // ValueError raised by `int()`
    | WrongType                     // TypeError, AttributeError or KeyError: an operation on the wrong kind of value
    | OutOfFuel                     // the model's bound on nested re-formatting was reached

  /** True of the errors Python raises as `ValueError` (as opposed to `IndexError` and the others). */
  predicate IsValueError(e: Error) {
    e.NotOpened? || e.Missing? || e.CompoundNeverClosed? || e.StringNeverClosed? || e.InvalidJson?
    || e.TooManyEquals? || e.BadNumber?
  }

  datatype Result<+T> = Ok(value: T) | Err(error: Error) {

    predicate IsFailure() {
      Err?
    }

    function PropagateFailure<U>(): Result<U>
      requires Err?
    {
      Err(error)
    }

    function Extract(): T
      requires Ok?
    {
      value
    }
  }
}
