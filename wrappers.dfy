/** Failure-carrying values shared by every module of the model.
    Python exceptions of the modelled code become `Err` values of `Result`. */
module Wrappers {

  datatype Option<+T> = None | Some(value: T)

  /** The Python exception classes that the modelled code can raise. */
  datatype PyError =
    | KeyError            // missing dict key
    | TypeError           // wrong operand type (e.g. `str < int`, indexing a non-list)
    | IndexError          // list index out of range, or an index the editor refuses
    | ValueError          // bad value (`max([])`, `range(..., step=0)`, concat of nothing)
    | AssertionError      // a failed `assert`
    | AttributeError      // reading an attribute that was never set
    | UnboundLocalError   // reading a local variable before any assignment
    | CollaboratorError   // any failure raised by a network, file or process collaborator

  datatype Result<+T> = Ok(value: T) | Err(error: PyError)
}
